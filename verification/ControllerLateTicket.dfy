/** A run in which a launch ticket is redeemed although the policy saved before
  * its insertion forbids the user everything.
  */
module ControllerLateTicket {
  import opened Options
  import opened Access
  import opened Quota
  import opened Controller
  import opened ControllerInvariant
  import opened ControllerTheorems

  const NO_ACCESS := Policy(0, 0, 1440, 0, 0)

  // The policy is saved between the decision and the insertion.
  const LATE: seq<Request> := [
    CreateUser(false, true),
    CreateConnection("", true, None),
    SetUserPermission(0, 1, true, None),
    CreateEnrolment(1),
    Enrol(2, 9),
    DecideLaunch(0, 1, Local(0, 0, 0)),
    SavePolicy(0, NO_ACCESS),
    DropPending(0),
    InsertLaunch(3, 9, MINUTE),
    RedeemLaunch(4, 9)]

  const ROW := ConnectionRow(1, "", true, None)
  const PERMITTED := Tables([ROW], [UserPermission(0, 1, true, None)], [], [])
  const USERS: map<int, User> := map[0 := User(false, true)]
  const DEVICES: map<int, bool> := map[9 := true]
  const ENROLLED: map<nat, Token> := map[2 := Token(Enrolment, MINUTE, Some(0))]
  const TICKET := Token(Launch(0, 9, 1, 0), MINUTE, None)

  const BARE := DB(Tables([], [], [], []), USERS, map[], {}, {}, map[], map[], [], map[], 1, 0)
  const CONNECTED := BARE.(access := Tables([ROW], [], [], []), next := 2)
  const GRANTED := CONNECTED.(access := PERMITTED)
  const ISSUED := GRANTED.(tokens := map[2 := Token(Enrolment, MINUTE, None)], next := 3)
  const READY := ISSUED.(devices := DEVICES, tokens := ENROLLED)
  const DECIDED := READY.(decisions := map[3 := Decision(0, 1, 0)], next := 4)
  const FORBIDDEN := DECIDED.(policies := map[0 := NO_ACCESS])
  const INSERTED := FORBIDDEN.(decisions := map[], tokens := ENROLLED[4 := TICKET], next := 5)

  lemma Prepare()
    ensures Serve(EMPTY, CreateUser(false, true)).db == BARE
    ensures Serve(BARE, CreateConnection("", true, None)).db == CONNECTED
    ensures Serve(ISSUED, Enrol(2, 9)).db == READY
  {
  }

  lemma Grant()
    ensures Serve(CONNECTED, SetUserPermission(0, 1, true, None)).db == GRANTED
  {
    assert ROW in CONNECTED.access.connections;
  }

  lemma IssueEnrolment()
    ensures Serve(GRANTED, CreateEnrolment(1)).db == ISSUED
  {
  }

  lemma MayLaunch()
    ensures CanLaunch(PERMITTED, 0, 1)
  {
    assert ROW in EnabledRows(PERMITTED, 1);
    var p := UserPermission(0, 1, true, None);
    assert p in DirectRows(PERMITTED, 0, 1);
    QueriesAgree(PERMITTED, 0, 1);
  }

  lemma DecideNow()
    ensures Serve(READY, DecideLaunch(0, 1, Local(0, 0, 0))).db == DECIDED
  {
    MayLaunch();
    hide CanLaunch;
    assert Used(READY.usage, 0, 0, 0) == 0;
    assert StatusOf(DEFAULT_POLICY, Local(0, 0, 0), 0) == Status(true, 0, 0);
  }

  lemma Forbid()
    ensures Serve(DECIDED, SavePolicy(0, NO_ACCESS)).db == FORBIDDEN
    ensures Serve(FORBIDDEN, DropPending(0)).db == FORBIDDEN
  {
    assert WithoutPending(ENROLLED, 0) == ENROLLED;
  }

  lemma InsertLate()
    ensures Serve(FORBIDDEN, InsertLaunch(3, 9, MINUTE)).db == INSERTED
  {
    assert ROW in PERMITTED.connections;
  }

  lemma RedeemLate()
    ensures Serve(INSERTED, RedeemLaunch(4, 9)).reply.Redeemed?
  {
    MayLaunch();
    QueriesAgree(PERMITTED, 0, 1);
    hide CanLaunch, Permitted, LaunchCredential;
    assert Fresh(INSERTED, 4);
  }

  lemma Then(rs: seq<Request>, i: nat, before: DB, after: DB)
    requires i < |rs| && State(rs, i) == before && Serve(before, rs[i]).db == after
    ensures State(rs, i + 1) == after
  {
    hide Serve, DbOk;
    Unfold(rs, i + 1);
  }

  // The ticket is redeemed under a policy that allows the user nothing at any time.
  lemma LateTicketRedeemed()
    ensures Answer(LATE, 9).Redeemed?
    ensures PolicyOf(State(LATE, 9), 0) == NO_ACCESS
    ensures forall l: Local, used: nat :: l.weekday < 7 ==> !StatusOf(NO_ACCESS, l, used).allowed
  {
    hide Serve, DbOk;
    var rs := LATE;
    Prepare();
    Then(rs, 0, EMPTY, BARE);
    Then(rs, 1, BARE, CONNECTED);
    Grant();
    Then(rs, 2, CONNECTED, GRANTED);
    IssueEnrolment();
    Then(rs, 3, GRANTED, ISSUED);
    Then(rs, 4, ISSUED, READY);
    DecideNow();
    Then(rs, 5, READY, DECIDED);
    Forbid();
    Then(rs, 6, DECIDED, FORBIDDEN);
    Then(rs, 7, FORBIDDEN, FORBIDDEN);
    InsertLate();
    Then(rs, 8, FORBIDDEN, INSERTED);
    RedeemLate();
    forall l: Local, used: nat | l.weekday < 7 ensures !StatusOf(NO_ACCESS, l, used).allowed {
      NoBit(l.weekday);
    }
  }

  lemma NoBit(k: nat)
    ensures !Bit(0, k)
  {
  }
}
