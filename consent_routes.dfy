/**
 * The `/api/consent` routes of server/routes/consent.js: whether the user has answered the
 * analytics-consent question, and saving the answer (one row per user, updated in place).
 */
module ConsentRoutes {
  import opened Wrappers
  import opened Domain
  import opened Http

  datatype ConsentStatus = ConsentStatus(hasConsented: bool, analyticsConsent: bool)

  /** `SELECT * FROM user_consent WHERE user_id = ?`. */
  function FindConsent(rows: seq<ConsentRow>, uid: int): (r: Option<ConsentRow>)
    ensures r.Some? ==> r.value in rows && r.value.userId == uid
    ensures r.None? ==> forall i :: 0 <= i < |rows| ==> rows[i].userId != uid
  {
    if rows == [] then None
    else if rows[0].userId == uid then Some(rows[0])
    else FindConsent(rows[1..], uid)
  }

  /** GET /status: no row means not answered (and no consent); a row reports its flag's truthiness. */
  function Status(st: Store, caller: int): (r: Response<ConsentStatus>)
    reads st
    ensures r.status == 200 && r.body.Json?
    ensures r.body.value.hasConsented <==> FindConsent(st.userConsent, caller).Some?
    ensures r.body.value.analyticsConsent <==>
      FindConsent(st.userConsent, caller).Some? && FindConsent(st.userConsent, caller).value.analyticsConsent != 0
  {
    match FindConsent(st.userConsent, caller)
    case None => Ok(ConsentStatus(false, false))
    case Some(c) => Ok(ConsentStatus(true, Truthy(c.analyticsConsent)))
  }

  /** The save as one function: update the caller's row when there is one, insert it otherwise. */
  function Upsert(rows: seq<ConsentRow>, uid: int, consent: bool): (r: seq<ConsentRow>)
  {
    if FindConsent(rows, uid).Some? then
      seq(|rows|, i requires 0 <= i < |rows| => if rows[i].userId == uid then ConsentRow(uid, Bit(consent)) else rows[i])
    else rows + [ConsentRow(uid, Bit(consent))]
  }

  /** The caller's row afterwards holds the answer as 1/0; every other user's row is untouched. */
  lemma UpsertContents(rows: seq<ConsentRow>, uid: int, consent: bool)
    ensures ConsentRow(uid, Bit(consent)) in Upsert(rows, uid, consent)
    ensures forall x :: x in rows && x.userId != uid ==> x in Upsert(rows, uid, consent)
    ensures forall x :: x in Upsert(rows, uid, consent) && x.userId != uid ==> x in rows
  {
    var r := Upsert(rows, uid, consent);
    if FindConsent(rows, uid).Some? {
      var k :| 0 <= k < |rows| && rows[k] == FindConsent(rows, uid).value;
      assert r[k] == ConsentRow(uid, Bit(consent));
      forall x | x in rows && x.userId != uid ensures x in r {
        var i :| 0 <= i < |rows| && rows[i] == x;
        assert r[i] == x;
      }
    }
  }

  /** Saving keeps one row per user. */
  lemma UpsertOneRowPerUser(rows: seq<ConsentRow>, uid: int, consent: bool)
    requires OneConsentRowPerUser(rows)
    ensures OneConsentRowPerUser(Upsert(rows, uid, consent))
  {
  }

  /** Round trip: after saving `v`, the status reports an answer, and it is `v`. */
  lemma {:induction false} SaveThenStatus(rows: seq<ConsentRow>, uid: int, consent: bool)
    requires OneConsentRowPerUser(rows)
    ensures FindConsent(Upsert(rows, uid, consent), uid) == Some(ConsentRow(uid, Bit(consent)))
  {
    var r := Upsert(rows, uid, consent);
    UpsertContents(rows, uid, consent);
    UpsertOneRowPerUser(rows, uid, consent);
    var k :| 0 <= k < |r| && r[k] == ConsentRow(uid, Bit(consent));
    FindUniqueConsent(r, uid, k);
  }

  /** With one row per user, the lookup finds the caller's only row. */
  lemma {:induction false} FindUniqueConsent(rows: seq<ConsentRow>, uid: int, k: nat)
    requires OneConsentRowPerUser(rows)
    requires k < |rows| && rows[k].userId == uid
    ensures FindConsent(rows, uid) == Some(rows[k])
  {
    if k > 0 {
      assert rows[0].userId != uid;
      FindUniqueConsent(rows[1..], uid, k - 1);
    }
  }

  /** Saving the same answer twice leaves the table as saving it once. */
  lemma SaveIdempotent(rows: seq<ConsentRow>, uid: int, consent: bool)
    requires OneConsentRowPerUser(rows)
    ensures Upsert(Upsert(rows, uid, consent), uid, consent) == Upsert(rows, uid, consent)
  {
    SaveThenStatus(rows, uid, consent);
  }

  /** POST /save: store the answer as 1/0 in the caller's single row. */
  method Save(st: Store, caller: int, consent: bool) returns (r: Response<()>)
    requires st.Valid()
    modifies st`userConsent
    ensures st.Valid()
    ensures r == Ok(())
    ensures st.userConsent == Upsert(old(st.userConsent), caller, consent)
    ensures Status(st, caller) == Ok(ConsentStatus(true, consent))
  {
    UpsertOneRowPerUser(st.userConsent, caller, consent);
    SaveThenStatus(st.userConsent, caller, consent);
    var rows := st.userConsent;
    var existing := FindConsent(rows, caller);
    if existing.Some? {
      st.userConsent := seq(|rows|, i requires 0 <= i < |rows| =>
        if rows[i].userId == caller then ConsentRow(caller, Bit(consent)) else rows[i]);
    } else {
      st.userConsent := rows + [ConsentRow(caller, Bit(consent))];
    }
    r := Ok(());
  }
}
