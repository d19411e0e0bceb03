/** The retry loops on concrete inputs: what they ask of their callers can be met. */
module Scenarios {
  import opened Text
  import opened Records
  import opened Seqs
  import opened Planner
  import opened Remote
  import opened Apply
  import opened Fates
  import opened Replay
  import opened Backoff
  import opened Cloudflare
  import opened CloudflareOutput
  import opened CloudflareReplan
  import opened App
  import opened Passes
  import opened Retries
  import opened Witnesses

  const POLICY := RetryPolicy(1, 4, 100)

  lemma PolicyIsSound()
    ensures Sound(POLICY.initialInterval, POLICY.maxInterval) && Ticks(POLICY, SleptClock(POLICY))
    ensures Slept(1, 4, 0) == 0 && Slept(1, 4, 1) == 1 && Delay(1, 4, 0) == 1 && Delay(1, 4, 1) == 2
  {
    TicksCanBeMet(POLICY);
    assert NextBackoffDelay(1, 4) == 2;
  }

  function SucceedsThirdTime(attempt: nat): AttemptResult {
    if attempt < 3 then Retry else Success
  }

  /** Two failures, then success: three attempts. */
  method RetryTwice() returns (ok: bool, attempts: nat)
    ensures ok && attempts == 3
  {
    hide Slept, Delay, Ticks, NextBackoffDelay;
    PolicyIsSound();
    var slept;
    ok, attempts, slept := RetryWithBackoff(POLICY, SucceedsThirdTime, SleptClock(POLICY));
    assert SucceedsThirdTime(attempts) == Retry ==> attempts == 1 || attempts == 2;
    assert attempts > 3 ==> SucceedsThirdTime(3) == Retry;
  }

  lemma MovedIsFiltered()
    ensures FactsFor(HOME, [Wanted("1", "b")], [Shown("a")], [OwnedBy("1", "a")]) == MOVED
  {
    FilterAll([Wanted("1", "b")], MeantFor(HOME));
  }

  function FailsOnce(n: nat): Option<Fault> {
    if n == 1 then Some(Temporary) else None
  }

  function NeverFails(n: nat): Option<Fault> { None }

  function AlwaysSaves(n: nat): bool { false }

  function NoTimes(n: nat): nat -> int { (i: nat) => 0 }

  /** One container whose answer has changed, and an output whose first mutation fails temporarily: if the retries end
      in success, the output has served the one update, once. */
  method ReconcileWithOneFailure() returns (result: PassResult, served: seq<Call>)
    ensures result.PassDone? || FailedForNow(result)
    ensures result.PassDone? ==> served == [COLLISION]
  {
    hide Slept, Delay, Ticks, NextBackoffDelay, IsPlan, Calls, Tidy, COLLISION, MOVED, Undisturbed, AllUnderway,
         ForeignStay, FactsFor, FailedForNow, IsTrace, SleptClock, Min, Sound;
    var remote := RemoteState(HOME, [Shown("a")], false, 0, []);
    var output := new Output(remote, FailsOnce);
    var source := new Source([Wanted("1", "b")], NeverFails);
    var store := new Store(Snapshot(SNAPSHOT_VERSION, [OwnedBy("1", "a")]), AlwaysSaves);
    var sources, outputs := [source], [output];
    OneSource(source);
    PolicyIsSound();
    var plan := BuildReconcilePlan(Facts(HOME, [Wanted("1", "b")], [Shown("a")], [OwnedBy("1", "a")]));
    ghost var turn := OneTurn(plan, remote);
    var attempts, slept;
    ghost var turns, run, trace;
    result, attempts, slept, turns, run, trace :=
      Reconcile(sources, outputs, store, POLICY, SleptClock(POLICY), NoTimes, [turn]);
    served := output.state.served;
    if result.PassDone? {
      ServedAll(turns[0], turn, States(outputs)[0], store.snapshot.managedRecords);
    }
  }

  /** The one pass that would run if nothing failed. */
  lemma OneTurn(plan: Plan, remote: RemoteState) returns (turn: Turn)
    requires IsPlan(Facts(HOME, [Wanted("1", "b")], [Shown("a")], [OwnedBy("1", "a")]), plan)
    requires remote.provider == HOME && remote.records == [Shown("a")]
    ensures turn.facts == FactsFor(HOME, [Wanted("1", "b")], remote.records, [OwnedBy("1", "a")])
    ensures turn.facts.output == HOME && turn.origin == remote && Undisturbed(turn) && Calls(HOME, turn.plan) == [COLLISION]
  {
    hide IsPlan, Calls, Tidy, COLLISION, MOVED;
    MovedFacts();
    MovedIsFiltered();
    HypothesesCanBeMet(plan);
    turn := Turn(MOVED, remote, 0, plan, 0);
    MovedStarts(turn);
  }

  lemma ServedAll(end: Turn, turn: Turn, state: RemoteState, managed: seq<ManagedRecord>)
    requires end == turn.(done := end.done) && Undisturbed(turn) && turn.origin.served == []
    requires turn.facts.output == HOME && Calls(HOME, turn.plan) == [COLLISION]
    requires Arrived(end, state, managed) && Logged(end, HOME, turn.origin, state)
    ensures state.served == [COLLISION]
  {
    hide COLLISION, Calls, Undisturbed;
  }

  lemma MovedFacts()
    ensures MOVED == Facts(HOME, [Wanted("1", "b")], [Shown("a")], [OwnedBy("1", "a")])
  {
  }

  lemma MovedStarts(turn: Turn)
    requires turn.facts == MOVED && turn.origin.provider == HOME && turn.origin.records == [Shown("a")]
    ensures StartsFrom(turn.facts, turn.origin)
  {
  }

  lemma OneSource(source: Source)
    ensures AllDesired([source]) == source.records
  {
    assert [source][..0] == [];
  }

  // ---- Cloudflare --------------------------------------------------------------------------------------------

  function DuplicateFirst(n: nat): Option<ApiFault> {
    if n == 0 then Some(ApiFault(400, [81058])) else None
  }

  function AllAddresses(content: string): Kind { A }

  lemma StoredIsIdentified()
    ensures Identified([STORED], 2)
  {
    PlainIsFixed("id");
    assert TrimLeft("id") == "id" && TrimRight("id") == "id";
  }

  lemma OneListing(ref: ProviderRef, r: ZoneRecord)
    requires !r.kind.Unsupported?
    ensures Listing(ref, [r]) == [Listed(ref, r)]
  {
    hide Normalize;
    assert [r][..0] == [];
  }

  lemma WebIsCompleted()
    ensures FullName("web", "example.com") == "web.example.com" && Addressable("web", "example.com") && Plain("example.com")
  {
    assert "web" + "." + "example.com" == "web.example.com";
  }

  lemma WebIsEquivalent()
    ensures HostnamesEquivalent("web.example.com", "web", "example.com")
  {
    WebIsStoredInFull();
    WebIsCompleted();
    hide Normalize, HostnamesEquivalent, FullName, Addressable, Plain;
    FullNameIsEquivalent("web", "example.com");
  }

  lemma WebMatches()
    ensures Filter(Listing(ZONE, [STORED]), EquivalentTo("web", Normalize("example.com"))) == [Listed(ZONE, STORED)]
  {
    WebIsStoredInFull();
    NormalIsPlain();
    WebIsEquivalent();
    hide Normalize, Listing, HostnamesEquivalent;
    OneListing(ZONE, STORED);
    FilterSingle(Listed(ZONE, STORED), EquivalentTo("web", "example.com"));
  }

  lemma ExistsAlready()
    ensures SaysDuplicate(ApiFault(400, [81058]))
  {
    assert 81058 in [81058];
  }

  lemma CanListFirst()
    ensures CanList("z", "", DuplicateFirst, 1)
  {
    PlainIsFixed("z");
    assert TrimLeft("z") == "z" && TrimRight("z") == "z";
  }

  lemma WebIsAbsorbed()
    ensures Absorbs(ZONE, "z", "", Normalize("example.com"), AllAddresses, DuplicateFirst, 0, [STORED], WEB)
  {
    ExistsAlready();
    WebMatches();
    CanListFirst();
    WebIsStoredInFull();
    hide Normalize, Listing, CanList, EquivalentTo;
  }

  /** The create that every pass plans for a single label: the service reports a duplicate, and the recovery returns the
      identifier of the record that is already there and changes nothing. */
  method CreateAgain() returns (id: string, records: seq<ZoneRecord>)
    ensures id == "id" && records == [STORED]
  {
    hide Normalize, Absorbs, Listing;
    PlainIsFixed("example.com");
    StoredIsIdentified();
    FullNamesAreEquivalent("example.com");
    WebMatches();
    WebIsAbsorbed();
    assert Normalize("example.com") == "example.com" by { NormalIsPlain(); }
    var output := new CloudflareOutput(ZONE, "z", "example.com", FullNaming("example.com"), AllAddresses, DuplicateFirst, [STORED], 2);
    var created := output.Create(WEB);
    return created.value.value.remoteID, output.records;
  }

  function DuplicateSecond(n: nat): Option<ApiFault> {
    if n == 1 then Some(ApiFault(400, [81058])) else None
  }

  const MOVED_WEB := WEB.(answer := "b")

  lemma MovedBody()
    ensures BuildRecordBody(AllAddresses, MOVED_WEB.hostname, MOVED_WEB.answer) == Ok(Body(A, "web", "b"))
  {
    hide Normalize;
    WebIsStoredInFull();
    MovedIsNormal();
  }

  lemma MovedIsNormal()
    ensures Normalize("b") == "b"
  {
    PlainIsFixed("b");
  }

  lemma MovedMatchesTwice(made: ZoneRecord)
    requires made == MadeFor(Body(A, "web", "b"), FullNaming("example.com"), made.id)
    ensures |Filter(Listing(ZONE, [STORED] + [made]), EquivalentTo("web", "example.com"))| >= 2
  {
    WebIsCompleted();
    WebIsStoredInFull();
    WebIsEquivalent();
    hide Normalize, HostnamesEquivalent, Listing, Plain, FullName, Addressable;
    SecondIsNoMatch(ZONE, [STORED], STORED, made, "web", "example.com");
  }

  lemma CanListSecond()
    ensures CanList("z", "", DuplicateSecond, 2)
  {
    PlainIsFixed("z");
    assert TrimLeft("z") == "z" && TrimRight("z") == "z";
  }

  lemma MovedIsUndecided(made: ZoneRecord)
    requires made == MadeFor(Body(A, "web", "b"), FullNaming("example.com"), made.id)
    ensures Undecided(ZONE, "z", "", "example.com", AllAddresses, DuplicateSecond, 1, [STORED] + [made], MOVED_WEB)
  {
    hide Normalize, Listing, CanList, EquivalentTo, MadeFor;
    ExistsAlready();
    MovedBody();
    CanListSecond();
    MovedMatchesTwice(made);
  }

  /** The answer of the single label changes: the create that is planned makes a second record, and from then on the
      recovery from a duplicate fails. */
  method CreateAfterChange() returns (first: bool, again: bool, records: seq<ZoneRecord>)
    ensures first && !again && |records| == 2 && records[0] == STORED
  {
    hide Normalize, Undecided, Absorbs, Listing, FullNaming, Identified, StoresEquivalent, MadeFor;
    PlainIsFixed("example.com");
    StoredIsIdentified();
    FullNamesAreEquivalent("example.com");
    NormalIsPlain();
    MovedBody();
    var output :=
      new CloudflareOutput(ZONE, "z", "example.com", FullNaming("example.com"), AllAddresses, DuplicateSecond, [STORED], 2);
    var created := output.Create(MOVED_WEB);
    first := created.Ok?;
    ghost var made := MadeFor(Body(A, "web", "b"), output.naming, RemoteID(2));
    MadeIsMade(made);
    MovedIsUndecided(made);
    created := output.Create(MOVED_WEB);
    return first, created.Ok?, output.records;
  }

  lemma MadeIsMade(made: ZoneRecord)
    requires made == MadeFor(Body(A, "web", "b"), FullNaming("example.com"), RemoteID(2))
    ensures made == MadeFor(Body(A, "web", "b"), FullNaming("example.com"), made.id)
  {
  }

  lemma NormalIsPlain()
    ensures Normalize("example.com") == "example.com"
  {
    PlainIsFixed("example.com");
  }
}
