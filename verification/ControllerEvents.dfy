/** What a session event does, in terms of the requests before it. */
module ControllerEvents {
  import opened Options
  import opened Rows
  import opened Access
  import opened Quota
  import opened Stamps
  import opened Controller
  import opened ControllerInvariant
  import opened ControllerTheorems

  // ---- Redeemed tickets ----

  // The request redeems the launch ticket `k` for a device and a connection.
  ghost predicate RedeemsFor(rs: seq<Request>, m: nat, k: nat, device: int, connection: int)
    requires m < |rs|
  {
    && rs[m].RedeemLaunch? && rs[m].token == k && rs[m].device == device && Answer(rs, m).Redeemed?
    && Answer(rs, m).grant.Launch? && Answer(rs, m).grant.connection == connection
  }

  // A redeemed ticket stays until its connection is deleted.
  lemma RedeemedStep(db: DB, r: Request, k: nat)
    requires Stamped(db) && TokensOk(db) && k in db.tokens && db.tokens[k].grant.Launch? && db.tokens[k].redeemed.Some?
    ensures k in Serve(db, r).db.tokens <==> r != DeleteConnection(db.tokens[k].grant.connection)
    ensures k in Serve(db, r).db.tokens ==> Serve(db, r).db.tokens[k] == db.tokens[k]
  {
    hide Serve, Stamped;
    EffectHolds(db, r);
  }

  ghost predicate Redeemed(db: DB, k: nat) {
    k in db.tokens && db.tokens[k].grant.Launch? && db.tokens[k].redeemed.Some?
  }

  // A redeemed launch ticket was redeemed by a request of its device, and its
  // connection was not deleted since.
  lemma {:induction false} RedeemedBy(rs: seq<Request>, i: nat, k: nat) returns (m: nat)
    requires i <= |rs| && Redeemed(State(rs, i), k)
    ensures var g := State(rs, i).tokens[k].grant;
            && m < i && RedeemsFor(rs, m, k, g.device, g.connection)
            && forall n :: m < n < i ==> rs[n] != DeleteConnection(g.connection)
  {
    hide Serve, DbOk, Stamped, TokensOk;
    if i == 0 {
      assert false;
    } else {
      Unfold(rs, i);
      var before, r := State(rs, i - 1), rs[i - 1];
      OkParts(before);
      if Redeemed(before, k) {
        RedeemedStep(before, r, k);
        m := RedeemedBy(rs, i - 1, k);
      } else {
        m := i - 1;
        RedeemedNow(before, r, k);
      }
    }
  }

  lemma RedeemedNow(db: DB, r: Request, k: nat)
    requires Stamped(db) && TokensOk(db) && !Redeemed(db, k) && Redeemed(Serve(db, r).db, k)
    ensures k in db.tokens && Serve(db, r).db.tokens[k].grant == db.tokens[k].grant
    ensures r.RedeemLaunch? && r.token == k && r.device == db.tokens[k].grant.device && Serve(db, r).reply.Redeemed?
    ensures Serve(db, r).reply.grant == db.tokens[k].grant
  {
    hide Serve, Stamped, TokensOk, Entitled;
    if k in db.tokens {
      TokenStep(db, r, k);
      AcceptedIff(db, r, k);
    } else {
      NewToken(db, r, k);
    }
  }

  lemma {:induction false} StaysRedeemed(rs: seq<Request>, m: nat, i: nat, k: nat, device: int, connection: int)
    requires m < i <= |rs| && RedeemsFor(rs, m, k, device, connection)
    requires forall n :: m < n < i ==> rs[n] != DeleteConnection(connection)
    ensures Redeemed(State(rs, i), k)
    ensures State(rs, i).tokens[k].grant.device == device && State(rs, i).tokens[k].grant.connection == connection
  {
    hide Serve, DbOk, Stamped, TokensOk;
    Unfold(rs, i);
    OkParts(State(rs, i - 1));
    if i == m + 1 {
      JustRedeemed(State(rs, m), rs[m]);
    } else {
      StaysRedeemed(rs, m, i - 1, k, device, connection);
      RedeemedStep(State(rs, i - 1), rs[i - 1], k);
    }
  }

  lemma JustRedeemed(db: DB, r: Request)
    requires Stamped(db) && r.RedeemLaunch? && Serve(db, r).reply.Redeemed?
    ensures Redeemed(Serve(db, r).db, r.token)
    ensures Serve(db, r).db.tokens[r.token].grant == Serve(db, r).reply.grant
    ensures Serve(db, r).reply.grant.Launch? && Serve(db, r).reply.grant.device == r.device
  {
    hide Serve, Stamped, Entitled;
    AcceptedIff(db, r, r.token);
    EffectHolds(db, r);
  }

  // ---- Events ----

  // The event comes from an enabled device that redeemed the ticket before, names
  // the ticket's connection, and that connection was not deleted since.
  ghost predicate Fits(rs: seq<Request>, i: nat)
    requires i < |rs|
  {
    && rs[i].SessionEvent? && InUse(State(rs, i), rs[i].device) && rs[i].named.Some?
    && exists m: nat ::
         && m < i && RedeemsFor(rs, m, rs[i].ticket, rs[i].device, rs[i].named.value)
         && forall n :: m < n < i ==> rs[n] != DeleteConnection(rs[i].named.value)
  }

  lemma FitsIffAccepted(rs: seq<Request>, i: nat)
    requires i < |rs| && rs[i].SessionEvent?
    ensures Fits(rs, i) <==> EventAccepted(State(rs, i), rs[i].device, rs[i].ticket, rs[i].named)
  {
    hide Serve, DbOk, State, RedeemsFor;
    var r := rs[i];
    if Fits(rs, i) {
      var m: nat :| && m < i && RedeemsFor(rs, m, r.ticket, r.device, r.named.value)
                    && forall n :: m < n < i ==> rs[n] != DeleteConnection(r.named.value);
      StaysRedeemed(rs, m, i, r.ticket, r.device, r.named.value);
    }
    if EventAccepted(State(rs, i), r.device, r.ticket, r.named) {
      var m := RedeemedBy(rs, i, r.ticket);
    }
  }

  // What the row becomes at the end of its session.
  ghost predicate ClosedAs(u: Usage, v: Usage, ticket: nat, now: int) {
    if u.ticket == ticket && u.ended.None? then
      && (v.ticket, v.user, v.device, v.connection, v.started) == (u.ticket, u.user, u.device, u.connection, u.started)
      && v.ended == Some(now) && v.duration == (if now > u.started then (now - u.started) / 1_000_000_000 else 0)
    else v == u
  }

  // A report that fits opens the row of its ticket if it has none, or closes its
  // open row at that moment; every other event changes nothing.
  lemma EventEffect(rs: seq<Request>, i: nat)
    requires i < |rs| && rs[i].SessionEvent?
    ensures var r, db, after := rs[i], State(rs, i), State(rs, i + 1);
            && (Answer(rs, i).Done? <==> Fits(rs, i))
            && (!Fits(rs, i) ==> after == db)
            && (Fits(rs, i) && r.event.Started? && (exists u :: u in db.usage && u.ticket == r.ticket) ==> after == db)
            && (Fits(rs, i) && r.event.Started? && (forall u :: u in db.usage ==> u.ticket != r.ticket) ==>
                  r.ticket in db.tokens && db.tokens[r.ticket].grant.Launch?
                  && after == db.(usage := db.usage + [Usage(r.ticket, db.tokens[r.ticket].grant.user, r.device,
                                                             r.named.value, db.now, None, 0)]))
            && (Fits(rs, i) && !r.event.Started? ==>
                  && after == db.(usage := after.usage) && |after.usage| == |db.usage|
                  && forall n :: 0 <= n < |db.usage| ==> ClosedAs(db.usage[n], after.usage[n], r.ticket, db.now))
  {
    hide DbOk, Fits, State;
    FitsIffAccepted(rs, i);
    Unfold(rs, i + 1);
    OkParts(State(rs, i));
    EventStep(State(rs, i), rs[i]);
    hide Serve, EventAccepted;
  }

  lemma EventStep(db: DB, r: Request)
    requires Stamped(db) && r.SessionEvent?
    ensures var after := Serve(db, r).db; var accepted := EventAccepted(db, r.device, r.ticket, r.named);
            && (Serve(db, r).reply.Done? <==> accepted)
            && (!accepted ==> after == db)
            && (accepted && r.event.Started? && (exists u :: u in db.usage && u.ticket == r.ticket) ==> after == db)
            && (accepted && r.event.Started? && (forall u :: u in db.usage ==> u.ticket != r.ticket) ==>
                  && r.ticket in db.tokens && db.tokens[r.ticket].grant.Launch? && r.named.Some?
                  && after == db.(usage := db.usage + [Usage(r.ticket, db.tokens[r.ticket].grant.user, r.device,
                                                             r.named.value, db.now, None, 0)]))
            && (accepted && !r.event.Started? ==>
                  && after == db.(usage := after.usage) && |after.usage| == |db.usage|
                  && forall n :: 0 <= n < |db.usage| ==> ClosedAs(db.usage[n], after.usage[n], r.ticket, db.now))
  {
    hide Stamped;
  }
}
