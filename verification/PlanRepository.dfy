/** The plan repository: tables updated in place, one call at a time. */
module PlanRepository {
  import opened Minutes
  import opened PlanStore
  import opened PlanPromises

  class Repository {
    var plans: map<string, Plan>
    var heads: map<string, Head>
    var idem: map<IdemKey, IdemRow>
    var log: seq<Event>
    var tickets: seq<Ticket>

    ghost function Contents(): Store
      reads this
    {
      Store(plans, heads, idem, log, tickets)
    }

    constructor ()
      ensures Contents() == Run([])
    {
      plans, heads, idem, log, tickets := map[], map[], map[], [], [];
    }

    method SavePlan(now: int, version: string, identity: Identity, content: Content, status: Status, key: string)
      returns (error: Option<Error>)
      modifies this
      ensures error == Failure(old(Contents()), Save(now, version, identity, content, status, key))
      ensures Contents() == After(old(Contents()), Save(now, version, identity, content, status, key))
    {
      if version in plans && Protected(plans[version].status) {
        return Some(PlanProtected);
      }
      if Protected(status) {
        return Some(PlanProtected);
      }
      if version in plans {
        plans := plans[version := plans[version].(content := content, status := status, updatedAt := now)];
      } else {
        plans := plans[version := Plan(identity, content, status, None, now, now)];
      }
      if key != "" {
        var k := IdemKey(identity.scenario, key);
        if k !in idem {
          idem := idem[k := IdemRow(version, identity.inputHash)];
        }
      }
      return None;
    }

    /** In any store that calls have made, the row is the one the first save under the key
        wrote, and there is none exactly when no save went through under it. */
    method FindByIdempotency(scenario: string, key: string) returns (row: Option<IdemRow>)
      ensures row.Some? <==> IdemKey(scenario, key) in idem
      ensures row.Some? ==> row.value == idem[IdemKey(scenario, key)]
      ensures forall calls: seq<Call>, i: nat ::
                Contents() == Run(calls) && FirstUnder(calls, i, IdemKey(scenario, key)) ==>
                row == Some(IdemRow(calls[i].version, calls[i].identity.inputHash))
      ensures forall calls: seq<Call> :: Contents() == Run(calls) && row.Some? ==>
                exists i: nat :: FirstUnder(calls, i, IdemKey(scenario, key))
    {
      var k := IdemKey(scenario, key);
      row := if k in idem then Some(idem[k]) else None;
      hide Run, SavesUnder;
      forall calls: seq<Call> | Contents() == Run(calls)
        ensures row.Some? ==> exists i: nat :: FirstUnder(calls, i, k)
        ensures forall i: nat :: FirstUnder(calls, i, k) ==>
                  row == Some(IdemRow(calls[i].version, calls[i].identity.inputHash))
      {
        var first := KeyTellsFirstSave(calls, k);
        forall i: nat | FirstUnder(calls, i, k)
          ensures row == Some(IdemRow(calls[i].version, calls[i].identity.inputHash))
        {
          assert SavesUnder(calls, i, k);
          assert SavesUnder(calls, first, k);
          assert i == first;
        }
      }
    }

    method AdvanceHead(scenario: string, version: string, tenant: string) returns (revision: nat)
      modifies this`heads
      ensures Contents() == Headed(old(Contents()), scenario, version, tenant)
      ensures revision == Revision(Contents(), scenario)
    {
      revision := 1;
      var who := tenant;
      if scenario in heads {
        revision := heads[scenario].revision + 1;
        who := heads[scenario].tenant;
      }
      heads := heads[scenario := Head(who, version, revision)];
    }

    method SetHead(scenario: string, version: string, tenant: string, expected: Option<int>)
      returns (error: Option<Error>, revision: nat)
      modifies this
      ensures error == Failure(old(Contents()), PlanStore.SetHead(scenario, version, tenant, expected))
      ensures Contents() == After(old(Contents()), PlanStore.SetHead(scenario, version, tenant, expected))
      ensures error.None? ==> revision == Revision(Contents(), scenario)
    {
      var current := if scenario in heads then heads[scenario].revision else 0;
      if expected.Some? && current != expected.value {
        return Some(HeadConflict), 0;
      }
      revision := AdvanceHead(scenario, version, tenant);
      return None, revision;
    }

    /** Writes the new status and its event; a release also writes its time. */
    method WriteStatus(now: int, version: string, from: Status, to: Status, stamp: Stamp)
      requires version in plans
      modifies this`plans, this`log
      ensures Contents() == Written(old(Contents()), now, version, from, to, stamp)
    {
      var p := plans[version];
      log := log + [Event(version, from, to, stamp, now)];
      if to == Released {
        plans := plans[version := p.(status := to, releasedAt := Some(now), updatedAt := now)];
      } else {
        plans := plans[version := p.(status := to, updatedAt := now)];
      }
    }

    method Transition(now: int, version: string, to: Status, stamp: Stamp, expectedFrom: Option<Status>)
      returns (error: Option<Error>)
      modifies this
      ensures error == Failure(old(Contents()), Move(now, version, to, stamp, expectedFrom))
      ensures Contents() == After(old(Contents()), Move(now, version, to, stamp, expectedFrom))
    {
      if to.Other? {
        return Some(InvalidStatus);
      }
      if version !in plans {
        return Some(PlanNotFound);
      }
      var p := plans[version];
      if p.status.Other? {
        return Some(InvalidStatus);
      }
      if Rank(to) != Rank(p.status) + 1 {
        return Some(IllegalTransition);
      }
      if expectedFrom.Some? && p.status != expectedFrom.value {
        return Some(StaleRevision);
      }
      if p.identity.purpose != PRODUCTION && Protected(to) {
        return Some(PurposeNotReleasable);
      }
      if to == Released && !Passing(p) {
        return Some(ValidationFailed);
      }
      WriteStatus(now, version, p.status, to, stamp);
      return None;
    }

    method ApplyRelease(now: int, version: string, scenario: string, tenant: string, stamp: Stamp,
                        expectedFrom: Option<Status>, expected: Option<int>)
      returns (error: Option<Error>, revision: nat)
      modifies this
      ensures error == Failure(old(Contents()), Release(now, version, scenario, tenant, stamp, expectedFrom, expected))
      ensures Contents()
              == After(old(Contents()), Release(now, version, scenario, tenant, stamp, expectedFrom, expected))
      ensures error.None? ==> revision == Revision(Contents(), scenario)
    {
      revision := 0;
      if version !in plans {
        return Some(PlanNotFound), 0;
      }
      var p := plans[version];
      if Protected(p.status) {
        return Some(PlanProtected), 0;
      }
      if expectedFrom.Some? && p.status != expectedFrom.value {
        return Some(StaleRevision), 0;
      }
      if p.status != Draft && p.status != Approved {
        return Some(IllegalTransition), 0;
      }
      if p.identity.purpose != PRODUCTION {
        return Some(PurposeNotReleasable), 0;
      }
      if !Passing(p) {
        return Some(ValidationFailed), 0;
      }
      var current := if scenario in heads then heads[scenario].revision else 0;
      if expected.Some? && current != expected.value {
        return Some(HeadConflict), 0;
      }
      if p.status == Draft {
        WriteStatus(now, version, p.status, Approved, Review(stamp));
      }
      WriteStatus(now, version, Approved, Released, stamp);
      revision := AdvanceHead(scenario, version, tenant);
      return None, revision;
    }

    method CreateDispatch(t: Ticket) returns (reply: Reply)
      modifies this`tickets
      ensures reply == Answer(old(Contents()), t)
      ensures Contents() == After(old(Contents()), Issue(t))
    {
      if t.plan !in plans {
        return Refused(PlanNotFound);
      }
      if plans[t.plan].status != Released {
        return Refused(NotReleased);
      }
      var row := TicketFor(tickets, t.plan, t.key);
      if row.Some? {
        return Issued(row.value, true);
      }
      if IdTaken(tickets, t.id) {
        return Refused(TicketIdTaken);
      }
      tickets := tickets + [t];
      return Issued(t, false);
    }
  }
}
