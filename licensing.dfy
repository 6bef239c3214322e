/** Licensing: a registrant's licensing status as a value, the events that a
    registrant or a facility applies to it, and what any sequence of such
    events can and cannot produce. */
module Licensing {

  /** The three entries of a registrant's license data. */
  datatype LicenseData = LicenseData(written: bool, license: bool, renewed: bool)

  const UNLICENSED := LicenseData(false, false, false)

  /** The youngest age at which the written test is administered. */
  const MINIMUM_TEST_AGE := 16

  /** Everything about a registrant that licensing reads or changes. */
  datatype Status = Status(age: nat, permit: bool, data: LicenseData)

  /** One call that affects a registrant. For the facility's three services,
      `offered` tells whether the facility lists the service in question. */
  datatype Event =
    | PermitEarned
    | PermitUnearned
    | WrittenTestTaken(offered: bool)
    | RoadTestTaken(offered: bool)
    | RenewalRequested(offered: bool)

  /** The flags a registrant can hold. */
  datatype Flag = Permit | Written | License | Renewed

  predicate Holds(s: Status, f: Flag) {
    match f
    case Permit => s.permit
    case Written => s.data.written
    case License => s.data.license
    case Renewed => s.data.renewed
  }

  /** The one call that can raise each flag, in its successful form. */
  function Enabler(f: Flag): (e: Event) {
    match f
    case Permit => PermitEarned
    case Written => WrittenTestTaken(true)
    case License => RoadTestTaken(true)
    case Renewed => RenewalRequested(true)
  }

  /** Whether a call succeeds: permit changes always do; each facility service
      needs to be offered and needs its own prerequisites. */
  predicate Succeeds(s: Status, e: Event)
    ensures (e.WrittenTestTaken? || e.RoadTestTaken? || e.RenewalRequested?) && !e.offered ==> !Succeeds(s, e)
    ensures e.WrittenTestTaken? && Succeeds(s, e) ==> s.permit && s.age >= MINIMUM_TEST_AGE
    ensures e.RoadTestTaken? && Succeeds(s, e) ==> s.permit && s.data.written
    ensures e.RenewalRequested? && Succeeds(s, e) ==> s.data.license
  {
    match e
    case PermitEarned => true
    case PermitUnearned => true
    case WrittenTestTaken(offered) => offered && s.age >= MINIMUM_TEST_AGE && s.permit
    case RoadTestTaken(offered) => offered && s.permit && s.data.written
    case RenewalRequested(offered) => offered && s.data.license
  }

  /** The steps are taken in order: a license needs the written test, a
      renewal needs a license, and nobody under the minimum age has passed
      the written test. */
  predicate Consistent(s: Status) {
    && (s.data.written ==> s.age >= MINIMUM_TEST_AGE)
    && (s.data.license ==> s.data.written)
    && (s.data.renewed ==> s.data.license)
  }

  predicate NoFlagCleared(d: LicenseData, d': LicenseData) {
    && (d.written ==> d'.written)
    && (d.license ==> d'.license)
    && (d.renewed ==> d'.renewed)
  }

  /** The status after one call. */
  function Step(s: Status, e: Event): (r: Status)
    ensures r.age == s.age
    ensures !Succeeds(s, e) ==> r == s
    ensures e == PermitEarned ==> r == s.(permit := true)
    ensures e == PermitUnearned ==> r == s.(permit := false)
    ensures e.WrittenTestTaken? && Succeeds(s, e) ==> r == s.(data := s.data.(written := true))
    ensures e.RoadTestTaken? && Succeeds(s, e) ==> r == s.(data := s.data.(license := true))
    ensures e.RenewalRequested? && Succeeds(s, e) ==> r == s.(data := s.data.(renewed := true))
    ensures NoFlagCleared(s.data, r.data)
    ensures Consistent(s) ==> Consistent(r)
    ensures forall f :: !Holds(s, f) && Holds(r, f) ==> e == Enabler(f) && Succeeds(s, e)
  {
    if !Succeeds(s, e) then s
    else
      match e
      case PermitEarned => s.(permit := true)
      case PermitUnearned => s.(permit := false)
      case WrittenTestTaken(_) => s.(data := s.data.(written := true))
      case RoadTestTaken(_) => s.(data := s.data.(license := true))
      case RenewalRequested(_) => s.(data := s.data.(renewed := true))
  }

  /** The status after a sequence of calls, applied in call order. */
  function Run(s: Status, trace: seq<Event>): (r: Status)
    decreases |trace|
  {
    if trace == [] then s
    else Step(Run(s, trace[..|trace| - 1]), trace[|trace| - 1])
  }

  lemma {:induction false} RunKeepsConsistent(s: Status, trace: seq<Event>)
    requires Consistent(s)
    ensures Consistent(Run(s, trace))
    decreases |trace|
  {
    if trace != [] {
      RunKeepsConsistent(s, trace[..|trace| - 1]);
    }
  }

  lemma {:induction false} RunNeverClearsFlags(s: Status, trace: seq<Event>)
    ensures Run(s, trace).age == s.age
    ensures NoFlagCleared(s.data, Run(s, trace).data)
    decreases |trace|
  {
    if trace != [] {
      RunNeverClearsFlags(s, trace[..|trace| - 1]);
    }
  }

  /** A flag that was down at the start and is up at the end was raised by
      its enabling call, and that call succeeded in the status it met. */
  lemma {:induction false} RaisedByEnabler(s: Status, trace: seq<Event>, f: Flag)
    requires !Holds(s, f) && Holds(Run(s, trace), f)
    ensures exists k :: 0 <= k < |trace| && trace[k] == Enabler(f) && Succeeds(Run(s, trace[..k]), trace[k])
    decreases |trace|
  {
    if trace != [] {
      var last := |trace| - 1;
      var prefix := trace[..last];
      if Holds(Run(s, prefix), f) {
        RaisedByEnabler(s, prefix, f);
        var k :| 0 <= k < |prefix| && prefix[k] == Enabler(f) && Succeeds(Run(s, prefix[..k]), prefix[k]);
        assert prefix[..k] == trace[..k];
        assert trace[k] == Enabler(f) && Succeeds(Run(s, trace[..k]), trace[k]);
      } else {
        assert trace[..last] == prefix;
        assert trace[last] == Enabler(f) && Succeeds(Run(s, trace[..last]), trace[last]);
      }
    }
  }

  /** The call that first raised flag `f` within the first `n` calls. */
  lemma RaisedWithin(s: Status, trace: seq<Event>, n: nat, f: Flag) returns (k: nat)
    requires n <= |trace|
    requires !Holds(s, f) && Holds(Run(s, trace[..n]), f)
    ensures k < n && trace[k] == Enabler(f) && Succeeds(Run(s, trace[..k]), trace[k])
  {
    var prefix := trace[..n];
    RaisedByEnabler(s, prefix, f);
    k :| 0 <= k < |prefix| && prefix[k] == Enabler(f) && Succeeds(Run(s, prefix[..k]), prefix[k]);
    assert prefix[..k] == trace[..k];
  }

  /** A registrant who starts with no license data, with or without a
      permit, reaches renewal only through the facility's three calls in this
      order: an offered written test, an offered road test, an offered renewal. */
  lemma RenewalFollowsEveryStep(s: Status, trace: seq<Event>)
    requires s.data == UNLICENSED
    requires Run(s, trace).data.renewed
    ensures exists i, j, k ::
              && 0 <= i < j < k < |trace|
              && trace[i] == WrittenTestTaken(true)
              && trace[j] == RoadTestTaken(true) && trace[k] == RenewalRequested(true)
  {
    assert trace[..|trace|] == trace;
    var k := RaisedWithin(s, trace, |trace|, Renewed);
    var j := RaisedWithin(s, trace, k, License);
    var i := RaisedWithin(s, trace, j, Written);
  }

  /** A registrant who also starts without a permit earned it before
      passing the written test, and so before every later step. */
  lemma RenewalNeedsEarnedPermit(s: Status, trace: seq<Event>)
    requires !s.permit && s.data == UNLICENSED
    requires Run(s, trace).data.renewed
    ensures exists h, i, j, k ::
              && 0 <= h < i < j < k < |trace|
              && trace[h] == PermitEarned && trace[i] == WrittenTestTaken(true)
              && trace[j] == RoadTestTaken(true) && trace[k] == RenewalRequested(true)
  {
    assert trace[..|trace|] == trace;
    var k := RaisedWithin(s, trace, |trace|, Renewed);
    var j := RaisedWithin(s, trace, k, License);
    var i := RaisedWithin(s, trace, j, Written);
    var h := RaisedWithin(s, trace, i, Permit);
  }

  /** Repeating a call has no further effect. */
  lemma StepIdempotent(s: Status, e: Event)
    ensures Step(Step(s, e), e) == Step(s, e)
  {
  }
}
