/**
  Keeping a Schedule object, the scheduler, the list of effective schedules and the schedules gauge
  in step (operator/schedulecontroller/handler.go, effectiveschedule.go and controller.go).
 */
module ScheduleHandler {
  import opened Text
  import opened BatchJobs
  import opened Randomizer
  import opened Scheduler

  /** A Schedule object: the definition given for each job type it has a spec for. */
  datatype Schedule = Schedule(namespace: string, name: string, specs: map<JobType, string>)

  datatype Effective = Effective(typ: JobType, schedule: string)

  function KeyOf(s: Schedule, t: JobType): string {
    s.namespace + "/" + s.name + "/" + TypeName(t)
  }

  /** Kubernetes names and namespaces contain no slash. */
  predicate PlainNames(s: Schedule) {
    '/' !in s.namespace && '/' !in s.name
  }

  lemma KeyParts(s: Schedule, t: JobType)
    requires PlainNames(s)
    ensures Split(KeyOf(s, t), '/') == [s.namespace, s.name, TypeName(t)]
  {
    assert '/' !in TypeName(t);
    SplitOfPlain(TypeName(t), '/');
    SplitAtSeparator(s.name, TypeName(t), '/');
    SplitAtSeparator(s.namespace, s.name + "/" + TypeName(t), '/');
    assert KeyOf(s, t) == s.namespace + "/" + (s.name + "/" + TypeName(t));
  }

  /** The keys, spelled out. */
  lemma KeyTexts(s: Schedule)
    ensures KeyOf(s, Backup) == s.namespace + "/" + s.name + "/backup"
    ensures KeyOf(s, Check) == s.namespace + "/" + s.name + "/check"
    ensures KeyOf(s, Archive) == s.namespace + "/" + s.name + "/archive"
    ensures KeyOf(s, Restore) == s.namespace + "/" + s.name + "/restore"
    ensures KeyOf(s, Prune) == s.namespace + "/" + s.name + "/prune"
  {
    assert "/" + "backup" == "/backup" && "/" + "check" == "/check" && "/" + "archive" == "/archive";
    assert "/" + "restore" == "/restore" && "/" + "prune" == "/prune";
  }

  lemma TypeNameInjective(t: JobType, u: JobType)
    requires TypeName(t) == TypeName(u)
    ensures t == u
  {
    assert TypeName(t)[0] == TypeName(u)[0];
  }

  /** Different schedules and job types have different keys. */
  lemma KeyInjective(s: Schedule, t: JobType, s': Schedule, t': JobType)
    requires PlainNames(s) && PlainNames(s') && KeyOf(s, t) == KeyOf(s', t')
    ensures s.namespace == s'.namespace && s.name == s'.name && t == t'
  {
    KeyParts(s, t);
    KeyParts(s', t');
    var parts := Split(KeyOf(s, t), '/');
    assert parts[0] == s'.namespace && parts[1] == s'.name && parts[2] == TypeName(t');
    TypeNameInjective(t, t');
  }

  // ---- The effective schedules in the object's status ----

  /** The definitions listed for a job type. */
  function EntriesFor(list: seq<Effective>, t: JobType): seq<string> {
    if list == [] then []
    else (if list[0].typ == t then [list[0].schedule] else []) + EntriesFor(list[1..], t)
  }

  /** Overwrites every entry of the type. */
  function Overwrite(list: seq<Effective>, t: JobType, schedule: string): (r: seq<Effective>)
    ensures |r| == |list|
  {
    if list == [] then []
    else [if list[0].typ == t then Effective(t, schedule) else list[0]] + Overwrite(list[1..], t, schedule)
  }

  function PutEffective(list: seq<Effective>, t: JobType, schedule: string): seq<Effective> {
    Overwrite(list, t, schedule) + if EntriesFor(list, t) == [] then [Effective(t, schedule)] else []
  }

  function CleanEffective(list: seq<Effective>, t: JobType, schedule: string): seq<Effective> {
    if list == [] then []
    else (if list[0].typ != t || IsRandom(schedule) then [list[0]] else []) + CleanEffective(list[1..], t, schedule)
  }

  lemma {:induction false} EntriesAppend(a: seq<Effective>, b: seq<Effective>, t: JobType)
    ensures EntriesFor(a + b, t) == EntriesFor(a, t) + EntriesFor(b, t)
  {
    if a == [] {
      assert a + b == b;
    } else {
      assert (a + b)[1..] == a[1..] + b;
      EntriesAppend(a[1..], b, t);
    }
  }

  lemma {:induction false} EntriesAfterOverwrite(list: seq<Effective>, t: JobType, schedule: string, u: JobType)
    ensures |EntriesFor(Overwrite(list, t, schedule), t)| == |EntriesFor(list, t)|
    ensures forall e :: e in EntriesFor(Overwrite(list, t, schedule), t) ==> e == schedule
    ensures u != t ==> EntriesFor(Overwrite(list, t, schedule), u) == EntriesFor(list, u)
  {
    if list != [] {
      EntriesAfterOverwrite(list[1..], t, schedule, u);
      var r := Overwrite(list, t, schedule);
      assert r[1..] == Overwrite(list[1..], t, schedule);
    }
  }

  lemma EntriesAfterPut(list: seq<Effective>, t: JobType, schedule: string, u: JobType)
    requires |EntriesFor(list, t)| <= 1
    ensures EntriesFor(PutEffective(list, t, schedule), t) == [schedule]
    ensures u != t ==> EntriesFor(PutEffective(list, t, schedule), u) == EntriesFor(list, u)
  {
    var r := Overwrite(list, t, schedule);
    EntriesAfterOverwrite(list, t, schedule, u);
    EntriesAppend(r, [Effective(t, schedule)], t);
    EntriesAppend(r, [Effective(t, schedule)], u);
    assert r + [] == r;
    if EntriesFor(list, t) != [] {
      assert EntriesFor(r, t)[0] in EntriesFor(r, t);
    }
  }

  lemma {:induction false} EntriesAfterClean(list: seq<Effective>, t: JobType, schedule: string, u: JobType)
    ensures EntriesFor(CleanEffective(list, t, schedule), u) ==
            if u == t && !IsRandom(schedule) then [] else EntriesFor(list, u)
  {
    if list != [] {
      EntriesAfterClean(list[1..], t, schedule, u);
      EntriesAppend(if list[0].typ != t || IsRandom(schedule) then [list[0]] else [],
                    CleanEffective(list[1..], t, schedule), u);
    }
  }

  /** getEffectiveSchedule: the list afterwards, and the definition for cron. */
  function GetEffective(list: seq<Effective>, t: JobType, original: string, checksum: nat): (seq<Effective>, string) {
    if !IsNonStandard(original) || !IsRandom(original) then (list, original)
    else
      var r := RandomizeSchedule(checksum, original);
      if !r.ok then (list, original) else (PutEffective(list, t, r.schedule), r.schedule)
  }

  // ---- One reconcile ----

  function At(m: map<string, int>, ns: string): int {
    if ns in m then m[ns] else 0
  }

  function Add(m: map<string, int>, ns: string, d: int): map<string, int> {
    m[ns := At(m, ns) + d]
  }

  /**
    The scheduler, the status list of the schedule being handled, and the gauge by namespace; two
    tallies record failed first-time registrations and registered keys removed by Deprovision.
   */
  datatype State = State(
    registry: Registry,
    effective: seq<Effective>,
    gauge: map<string, int>,
    failedFirst: map<string, int>,
    deprovisioned: map<string, int>)

  /** The answers of the outside world: what cron parses, and the checksum of a job type's seed. */
  datatype Outside = Outside(parses: string -> bool, checksum: JobType -> nat)

  /** The body of the createJobList loop for one job type. */
  function ProcessType(s: State, sch: Schedule, t: JobType, o: Outside): (State, bool) {
    var key, ns := KeyOf(sch, t), sch.namespace;
    var has := key in s.registry.schedules;
    if t !in sch.specs then
      (s.(gauge := if has then Add(s.gauge, ns, -1) else s.gauge,
          registry := s.registry.Remove(key),
          effective := CleanEffective(s.effective, t, "")),
       true)
    else
      var original := sch.specs[t];
      var (list, schedule) := GetEffective(CleanEffective(s.effective, t, original), t, original, o.checksum(t));
      var ok := o.parses(schedule);
      (s.(gauge := if !has then Add(s.gauge, ns, 1) else s.gauge,
          failedFirst := if !has && !ok then Add(s.failedFirst, ns, 1) else s.failedFirst,
          registry := s.registry.Set(key, schedule, ok),
          effective := list),
       ok)
  }

  /** createJobList, visiting the job types in the given order and stopping at the first error. */
  function CreateJobs(s: State, sch: Schedule, order: seq<JobType>, o: Outside): (State, bool)
    decreases order
  {
    if order == [] then (s, true)
    else
      var (s1, ok) := ProcessType(s, sch, order[0], o);
      if !ok then (s1, false) else CreateJobs(s1, sch, order[1..], o)
  }

  /** Deprovision: removes the key of every job type and leaves the gauge alone. */
  function Deprovision(s: State, sch: Schedule, order: seq<JobType>): State
    decreases order
  {
    if order == [] then s
    else
      var key := KeyOf(sch, order[0]);
      var s1 := s.(registry := s.registry.Remove(key),
                   deprovisioned := if key in s.registry.schedules then Add(s.deprovisioned, sch.namespace, 1) else s.deprovisioned);
      Deprovision(s1, sch, order[1..])
  }

  // ---- After an error-free createJobList ----

  predicate AtMostOneEach(list: seq<Effective>) {
    forall t: JobType :: |EntriesFor(list, t)| <= 1
  }

  /** What a reconcile establishes for a job type. */
  predicate InStep(s: State, sch: Schedule, t: JobType) {
    var key, entries := KeyOf(sch, t), EntriesFor(s.effective, t);
    && (t in sch.specs <==> s.registry.Live(key))
    && (t !in sch.specs ==> key !in s.registry.schedules && entries == [])
    && (t in sch.specs && IsRandom(sch.specs[t]) ==> entries == [s.registry.schedules[key].schedule])
    && (t in sch.specs && !IsRandom(sch.specs[t]) ==> entries == [] && s.registry.schedules[key].schedule == sch.specs[t])
  }

  /** Cron accepts no definition that ends in `-random`. */
  ghost predicate CronRejectsRandom(o: Outside) {
    forall d :: o.parses(d) ==> !IsRandom(d)
  }

  lemma ProcessKeepsLists(s: State, sch: Schedule, t: JobType, o: Outside, u: JobType)
    requires AtMostOneEach(s.effective)
    ensures AtMostOneEach(ProcessType(s, sch, t, o).0.effective)
    ensures u != t ==> EntriesFor(ProcessType(s, sch, t, o).0.effective, u) == EntriesFor(s.effective, u)
  {
    var s' := ProcessType(s, sch, t, o).0;
    forall v: JobType
      ensures |EntriesFor(s'.effective, v)| <= 1
      ensures v != t ==> EntriesFor(s'.effective, v) == EntriesFor(s.effective, v)
    {
      ProcessList(s, sch, t, o, v);
    }
  }

  lemma ProcessList(s: State, sch: Schedule, t: JobType, o: Outside, v: JobType)
    requires AtMostOneEach(s.effective)
    ensures var list := ProcessType(s, sch, t, o).0.effective;
            && |EntriesFor(list, v)| <= 1
            && (v != t ==> EntriesFor(list, v) == EntriesFor(s.effective, v))
            && (t !in sch.specs ==> EntriesFor(list, t) == [])
            && (t in sch.specs && !IsRandom(sch.specs[t]) ==> EntriesFor(list, t) == [])
  {
    var schedule := if t in sch.specs then sch.specs[t] else "";
    var clean := CleanEffective(s.effective, t, schedule);
    EntriesAfterClean(s.effective, t, schedule, v);
    EntriesAfterClean(s.effective, t, schedule, t);
    if t in sch.specs {
      EntriesAfterPut(clean, t, RandomizeSchedule(o.checksum(t), schedule).schedule, v);
    }
  }

  /** Processing a job type without error puts it in step. */
  lemma ProcessEstablishes(s: State, sch: Schedule, t: JobType, o: Outside)
    requires s.registry.Valid() && AtMostOneEach(s.effective) && CronRejectsRandom(o)
    requires ProcessType(s, sch, t, o).1
    ensures InStep(ProcessType(s, sch, t, o).0, sch, t)
    ensures t in sch.specs ==> !IsRandom(sch.specs[t]) || Translated(sch.specs[t])
  {
    var key := KeyOf(sch, t);
    ProcessList(s, sch, t, o, t);
    if t in sch.specs {
      var original := sch.specs[t];
      var clean := CleanEffective(s.effective, t, original);
      var (list, schedule) := GetEffective(clean, t, original, o.checksum(t));
      SetKeeps(s.registry, key, schedule, true);
      if IsRandom(original) {
        if !Translated(original) {
          OtherSchedulesUnchanged(o.checksum(t), original);
        }
        EntriesAfterClean(s.effective, t, original, t);
        EntriesAfterPut(clean, t, RandomizeSchedule(o.checksum(t), original).schedule, t);
      }
    } else {
      RemoveKeeps(s.registry, key);
    }
  }

  /** Processing one job type leaves the others in step. */
  lemma ProcessPreserves(s: State, sch: Schedule, t: JobType, o: Outside, u: JobType)
    requires s.registry.Valid() && AtMostOneEach(s.effective) && PlainNames(sch) && u != t
    ensures ProcessType(s, sch, t, o).0.registry.Valid()
    ensures InStep(s, sch, u) ==> InStep(ProcessType(s, sch, t, o).0, sch, u)
  {
    var key := KeyOf(sch, t);
    if KeyOf(sch, u) == key {
      KeyInjective(sch, u, sch, t);
    }
    ProcessKeepsLists(s, sch, t, o, u);
    if t in sch.specs {
      var original := sch.specs[t];
      var (_, schedule) := GetEffective(CleanEffective(s.effective, t, original), t, original, o.checksum(t));
      SetKeeps(s.registry, key, schedule, o.parses(schedule));
    } else {
      RemoveKeeps(s.registry, key);
    }
  }

  /**
    After createJobList returns without error, in whatever order it visited the job types: a type is
    registered exactly when it has a spec, its effective schedule is listed, once, exactly when the
    spec is random, and the listed definition is the one that is live in cron.
   */
  lemma {:induction false} HandledInStep(s: State, sch: Schedule, order: seq<JobType>, o: Outside, t: JobType)
    requires s.registry.Valid() && AtMostOneEach(s.effective) && PlainNames(sch) && CronRejectsRandom(o)
    requires CreateJobs(s, sch, order, o).1 && (t in order || InStep(s, sch, t))
    ensures CreateJobs(s, sch, order, o).0.registry.Valid()
    ensures InStep(CreateJobs(s, sch, order, o).0, sch, t)
    ensures t in order && t in sch.specs ==> !IsRandom(sch.specs[t]) || Translated(sch.specs[t])
    decreases order
  {
    if order != [] {
      var first := order[0];
      var s1 := ProcessType(s, sch, first, o).0;
      var other: JobType := if first == Backup then Check else Backup;
      ProcessPreserves(s, sch, first, o, other);
      ProcessKeepsLists(s, sch, first, o, other);
      ProcessEstablishes(s, sch, first, o);
      if t != first {
        ProcessPreserves(s, sch, first, o, t);
      }
      HandledInStep(s1, sch, order[1..], o, t);
    }
  }

  /** A schedule that asks for `@annually-random` can never be handled without error. */
  lemma AnnuallyRandomNeverWorks(s: State, sch: Schedule, order: seq<JobType>, o: Outside, t: JobType)
    requires s.registry.Valid() && AtMostOneEach(s.effective) && PlainNames(sch) && CronRejectsRandom(o)
    requires t in order && t in sch.specs && sch.specs[t] == "@annually-random"
    ensures !CreateJobs(s, sch, order, o).1
  {
    var random := "@annually-random";
    assert random[|random| - |"-random"|..] == "-random";
    if CreateJobs(s, sch, order, o).1 {
      HandledInStep(s, sch, order, o, t);
    }
  }

  // ---- The gauge ----

  function NamespaceOf(key: string): string {
    Split(key, '/')[0]
  }

  function Registered(r: Registry, ns: string): set<string> {
    set k | k in r.schedules && NamespaceOf(k) == ns
  }

  /** How far the gauge is off, and why. */
  predicate Accounted(s: State, ns: string) {
    At(s.gauge, ns) - |Registered(s.registry, ns)| == At(s.failedFirst, ns) + At(s.deprovisioned, ns)
  }

  lemma RegisteredAfterSet(r: Registry, key: string, schedule: string, parses: bool, ns: string)
    ensures |Registered(r.Set(key, schedule, parses), ns)| ==
            |Registered(r, ns)| + (if parses && key !in r.schedules && NamespaceOf(key) == ns then 1 else 0)
  {
    var s := r.Set(key, schedule, parses);
    assert forall k :: k in s.schedules <==> k in r.schedules || (parses && k == key);
    if parses && key !in r.schedules && NamespaceOf(key) == ns {
      assert key !in Registered(r, ns);
      assert Registered(s, ns) == Registered(r, ns) + {key};
    } else {
      assert Registered(s, ns) == Registered(r, ns);
    }
  }

  lemma RegisteredAfterRemove(r: Registry, key: string, ns: string)
    ensures |Registered(r.Remove(key), ns)| ==
            |Registered(r, ns)| - (if key in r.schedules && NamespaceOf(key) == ns then 1 else 0)
  {
    assert Registered(r.Remove(key), ns) == Registered(r, ns) - {key};
    assert key in Registered(r, ns) <==> key in r.schedules && NamespaceOf(key) == ns;
  }

  lemma ProcessAccounts(s: State, sch: Schedule, t: JobType, o: Outside, ns: string)
    requires PlainNames(sch) && Accounted(s, ns)
    ensures Accounted(ProcessType(s, sch, t, o).0, ns)
  {
    KeyParts(sch, t);
    var key := KeyOf(sch, t);
    if t in sch.specs {
      var original := sch.specs[t];
      var (_, schedule) := GetEffective(CleanEffective(s.effective, t, original), t, original, o.checksum(t));
      RegisteredAfterSet(s.registry, key, schedule, o.parses(schedule), ns);
    } else {
      RegisteredAfterRemove(s.registry, key, ns);
    }
  }

  lemma {:induction false} CreateAccounts(s: State, sch: Schedule, order: seq<JobType>, o: Outside, ns: string)
    requires PlainNames(sch) && Accounted(s, ns)
    ensures Accounted(CreateJobs(s, sch, order, o).0, ns)
    decreases order
  {
    if order != [] {
      ProcessAccounts(s, sch, order[0], o, ns);
      if ProcessType(s, sch, order[0], o).1 {
        CreateAccounts(ProcessType(s, sch, order[0], o).0, sch, order[1..], o, ns);
      }
    }
  }

  /** Deprovision unregisters every job type it visits and leaves the other keys registered. */
  lemma {:induction false} DeprovisionRemoves(s: State, sch: Schedule, order: seq<JobType>)
    ensures var end := Deprovision(s, sch, order).registry;
            && (forall t :: t in order ==> KeyOf(sch, t) !in end.schedules)
            && (forall k :: k in s.registry.schedules && (forall t :: t in order ==> KeyOf(sch, t) != k) ==>
                  k in end.schedules && end.schedules[k] == s.registry.schedules[k])
            && (forall k :: k in end.schedules ==> k in s.registry.schedules)
            && Deprovision(s, sch, order).gauge == s.gauge
    decreases order
  {
    if order != [] {
      var key := KeyOf(sch, order[0]);
      var s1 := s.(registry := s.registry.Remove(key),
                   deprovisioned := if key in s.registry.schedules then Add(s.deprovisioned, sch.namespace, 1) else s.deprovisioned);
      DeprovisionRemoves(s1, sch, order[1..]);
      assert order == [order[0]] + order[1..];
    }
  }

  lemma {:induction false} DeprovisionAccounts(s: State, sch: Schedule, order: seq<JobType>, ns: string)
    requires PlainNames(sch) && Accounted(s, ns)
    ensures Accounted(Deprovision(s, sch, order), ns)
    decreases order
  {
    if order != [] {
      var key := KeyOf(sch, order[0]);
      KeyParts(sch, order[0]);
      RegisteredAfterRemove(s.registry, key, ns);
      var s1 := s.(registry := s.registry.Remove(key),
                   deprovisioned := if key in s.registry.schedules then Add(s.deprovisioned, sch.namespace, 1) else s.deprovisioned);
      DeprovisionAccounts(s1, sch, order[1..], ns);
    }
  }

  // ---- Runs over many schedules ----

  /** A schedule by namespace and name. */
  type ScheduleId = (string, string)

  function Id(sch: Schedule): ScheduleId {
    (sch.namespace, sch.name)
  }

  /** The operator's state, and the effective schedules stored in the status of each Schedule object. */
  datatype Cluster = Cluster(state: State, stored: map<ScheduleId, seq<Effective>>)

  function StoredFor(c: Cluster, sch: Schedule): seq<Effective> {
    if Id(sch) in c.stored then c.stored[Id(sch)] else []
  }

  /**
    A reconcile of a schedule, with or without an error, whose list is stored if a status write
    succeeds; or a removal, after which the object is gone unless its update fails.
   */
  datatype Event =
    | Handle(sch: Schedule, order: seq<JobType>, outside: Outside, stored: bool)
    | Removal(sch: Schedule, order: seq<JobType>, gone: bool)

  /** The state and verdict of a reconcile that starts from the list in the object's status. */
  function Handled(c: Cluster, sch: Schedule, order: seq<JobType>, o: Outside): (State, bool) {
    CreateJobs(c.state.(effective := StoredFor(c, sch)), sch, order, o)
  }

  function Happens(c: Cluster, e: Event): Cluster {
    match e
    case Handle(sch, order, o, stored) =>
      var s := Handled(c, sch, order, o).0;
      Cluster(s, if stored then c.stored[Id(sch) := s.effective] else c.stored)
    case Removal(sch, order, gone) =>
      Cluster(Deprovision(c.state, sch, order), if gone then c.stored - {Id(sch)} else c.stored)
  }

  function Run(c: Cluster, events: seq<Event>): Cluster
    decreases events
  {
    if events == [] then c else Run(Happens(c, events[0]), events[1..])
  }

  const Start := Cluster(State(Empty, [], map[], map[], map[]), map[])

  lemma HappensAccounts(c: Cluster, e: Event, ns: string)
    requires Accounted(c.state, ns) && PlainNames(e.sch)
    ensures Accounted(Happens(c, e).state, ns)
  {
    match e
    case Handle(sch, order, o, _) => CreateAccounts(c.state.(effective := StoredFor(c, sch)), sch, order, o, ns);
    case Removal(sch, order, _) => DeprovisionAccounts(c.state, sch, order, ns);
  }

  lemma {:induction false} GaugeConservedFrom(c: Cluster, events: seq<Event>, ns: string)
    requires Accounted(c.state, ns) && forall e :: e in events ==> PlainNames(e.sch)
    ensures Accounted(Run(c, events).state, ns)
    decreases events
  {
    if events != [] {
      HappensAccounts(c, events[0], ns);
      GaugeConservedFrom(Happens(c, events[0]), events[1..], ns);
    }
  }

  /**
    Over every run, per namespace: the gauge minus the number of registered keys is the number of
    failed first-time registrations plus the number of registered keys removed by Deprovision.
   */
  lemma GaugeConserved(events: seq<Event>, ns: string)
    requires forall e :: e in events ==> PlainNames(e.sch)
    ensures Accounted(Run(Start, events).state, ns)
  {
    assert Registered(Empty, ns) == {};
    GaugeConservedFrom(Start, events, ns);
  }

  lemma OneType(s: State, sch: Schedule, t: JobType, o: Outside)
    ensures CreateJobs(s, sch, [t], o) == ProcessType(s, sch, t, o)
    ensures Deprovision(s, sch, [t]).registry == s.registry.Remove(KeyOf(sch, t))
    ensures Deprovision(s, sch, [t]).gauge == s.gauge
  {
    var (s1, ok) := ProcessType(s, sch, t, o);
    assert [t][1..] == [] && CreateJobs(s1, sch, [], o) == (s1, true);
    var s2 := s.(registry := s.registry.Remove(KeyOf(sch, t)),
                 deprovisioned := if KeyOf(sch, t) in s.registry.schedules then Add(s.deprovisioned, sch.namespace, 1) else s.deprovisioned);
    assert Deprovision(s2, sch, []) == s2;
  }

  /** A schedule for one job type that is handled and then removed: no key is left, and the gauge stays at one. */
  lemma RemovalLeavesGauge(sch: Schedule, t: JobType, definition: string, o: Outside, stored: bool, gone: bool)
    requires sch.specs == map[t := definition] && !IsRandom(definition) && o.parses(definition)
    ensures var end := Run(Start, [Handle(sch, [t], o, stored), Removal(sch, [t], gone)]).state;
            end.registry.schedules == map[] && At(end.gauge, sch.namespace) == 1
  {
    var events := [Handle(sch, [t], o, stored), Removal(sch, [t], gone)];
    assert events[1..] == [events[1]] && events[1..][1..] == [];
    var c1 := Happens(Start, events[0]);
    var c2 := Happens(c1, events[1]);
    assert Run(Start, events) == Run(c1, events[1..]) == Run(c2, []) == c2;
    var key := KeyOf(sch, t);
    OneType(Start.state, sch, t, o);
    OneType(c1.state, sch, t, o);
    assert c1.state == ProcessType(Start.state.(effective := []), sch, t, o).0;
    assert c1.state.registry.schedules.Keys == {key} && At(c1.state.gauge, sch.namespace) == 1;
    assert c2.state.registry == c1.state.registry.Remove(key) && c2.state.gauge == c1.state.gauge;
    assert c2.state.registry.schedules == map[];
  }

  // ---- Reachable states ----

  /** With or without an error, a reconcile keeps the registry valid and the list free of duplicates. */
  lemma {:induction false} CreateKeeps(s: State, sch: Schedule, order: seq<JobType>, o: Outside)
    requires s.registry.Valid()
    ensures CreateJobs(s, sch, order, o).0.registry.Valid()
    ensures AtMostOneEach(s.effective) ==> AtMostOneEach(CreateJobs(s, sch, order, o).0.effective)
    decreases order
  {
    if order != [] {
      var t := order[0];
      var key, s1 := KeyOf(sch, t), ProcessType(s, sch, t, o).0;
      if t in sch.specs {
        var original := sch.specs[t];
        var (_, schedule) := GetEffective(CleanEffective(s.effective, t, original), t, original, o.checksum(t));
        SetKeeps(s.registry, key, schedule, o.parses(schedule));
      } else {
        RemoveKeeps(s.registry, key);
      }
      if AtMostOneEach(s.effective) {
        ProcessKeepsLists(s, sch, t, o, t);
      }
      CreateKeeps(s1, sch, order[1..], o);
    }
  }

  lemma {:induction false} DeprovisionKeeps(s: State, sch: Schedule, order: seq<JobType>)
    requires s.registry.Valid()
    ensures Deprovision(s, sch, order).registry.Valid()
    decreases order
  {
    if order != [] {
      var key := KeyOf(sch, order[0]);
      RemoveKeeps(s.registry, key);
      var s1 := s.(registry := s.registry.Remove(key),
                   deprovisioned := if key in s.registry.schedules then Add(s.deprovisioned, sch.namespace, 1) else s.deprovisioned);
      DeprovisionKeeps(s1, sch, order[1..]);
    }
  }

  /** The registry is valid, and no stored list has two entries for a type. */
  predicate Sound(c: Cluster) {
    c.state.registry.Valid() && forall id :: id in c.stored ==> AtMostOneEach(c.stored[id])
  }

  lemma HappensKeeps(c: Cluster, e: Event)
    requires Sound(c)
    ensures Sound(Happens(c, e))
  {
    match e
    case Handle(sch, order, o, _) => CreateKeeps(c.state.(effective := StoredFor(c, sch)), sch, order, o);
    case Removal(sch, order, _) => DeprovisionKeeps(c.state, sch, order);
  }

  lemma {:induction false} RunKeeps(c: Cluster, events: seq<Event>)
    requires Sound(c)
    ensures Sound(Run(c, events))
    decreases events
  {
    if events != [] {
      HappensKeeps(c, events[0]);
      RunKeeps(Happens(c, events[0]), events[1..]);
    }
  }

  /**
    Whatever schedules were handled and removed before, with or without errors and failed writes: an
    error-free reconcile of a schedule leaves each visited job type in step, and its list without
    duplicates.
   */
  lemma HandledInStepAlways(events: seq<Event>, sch: Schedule, order: seq<JobType>, o: Outside, t: JobType)
    requires PlainNames(sch) && CronRejectsRandom(o) && t in order
    requires Handled(Run(Start, events), sch, order, o).1
    ensures var end := Handled(Run(Start, events), sch, order, o).0;
            InStep(end, sch, t) && AtMostOneEach(end.effective) && end.registry.Valid()
  {
    RunKeeps(Start, events);
    var c := Run(Start, events);
    var s := c.state.(effective := StoredFor(c, sch));
    CreateKeeps(s, sch, order, o);
    HandledInStep(s, sch, order, o, t);
  }

  // ---- The handler in place ----

  lemma OverwriteNext(list: seq<Effective>, i: nat, t: JobType, schedule: string)
    requires i < |list|
    ensures Overwrite(list[i..], t, schedule) ==
            [if list[i].typ == t then Effective(t, schedule) else list[i]] + Overwrite(list[i + 1..], t, schedule)
    ensures EntriesFor(list[i..], t) == (if list[i].typ == t then [list[i].schedule] else []) + EntriesFor(list[i + 1..], t)
  {
    assert list[i..][1..] == list[i + 1..];
  }

  lemma CleanNext(list: seq<Effective>, i: nat, t: JobType, schedule: string)
    requires i < |list|
    ensures CleanEffective(list[i..], t, schedule) ==
            (if list[i].typ != t || IsRandom(schedule) then [list[i]] else []) + CleanEffective(list[i + 1..], t, schedule)
  {
    assert list[i..][1..] == list[i + 1..];
  }

  lemma Regroup(a: seq<Effective>, b: seq<Effective>, c: seq<Effective>)
    ensures a + (b + c) == (a + b) + c && a + ([] + c) == a + c
  {
  }

  class Handler {
    const scheduler: CronScheduler
    var effective: seq<Effective>
    var gauge: map<string, int>
    ghost var failedFirst: map<string, int>
    ghost var deprovisioned: map<string, int>

    constructor (scheduler: CronScheduler)
      ensures this.scheduler == scheduler && effective == [] && gauge == failedFirst == deprovisioned == map[]
    {
      this.scheduler := scheduler;
      effective, gauge, failedFirst, deprovisioned := [], map[], map[], map[];
    }

    ghost function Value(): State
      reads this, scheduler
    {
      State(scheduler.Value(), effective, gauge, failedFirst, deprovisioned)
    }

    method SetEffectiveSchedule(t: JobType, schedule: string)
      modifies this`effective
      ensures effective == PutEffective(old(effective), t, schedule)
    {
      var list := effective;
      var newList: seq<Effective> := [];
      var found := false;
      for i := 0 to |list|
        invariant newList + Overwrite(list[i..], t, schedule) == Overwrite(list, t, schedule)
        invariant if found then EntriesFor(list, t) != [] else EntriesFor(list, t) == EntriesFor(list[i..], t)
        invariant i == |list| ==> newList == Overwrite(list, t, schedule)
      {
        var e := list[i];
        if e.typ == t {
          e := Effective(t, schedule);
          found := true;
        }
        OverwriteNext(list, i, t, schedule);
        Regroup(newList, [e], Overwrite(list[i + 1..], t, schedule));
        newList := newList + [e];
      }
      if !found {
        newList := newList + [Effective(t, schedule)];
      }
      effective := newList;
    }

    method CleanupEffectiveSchedules(t: JobType, schedule: string)
      modifies this`effective
      ensures effective == CleanEffective(old(effective), t, schedule)
    {
      var list := effective;
      var newList: seq<Effective> := [];
      for i := 0 to |list|
        invariant newList + CleanEffective(list[i..], t, schedule) == CleanEffective(list, t, schedule)
      {
        CleanNext(list, i, t, schedule);
        Regroup(newList, [list[i]], CleanEffective(list[i + 1..], t, schedule));
        if list[i].typ != t {
          newList := newList + [list[i]];
          continue;
        }
        if IsRandom(schedule) {
          newList := newList + [list[i]];
          continue;
        }
      }
      effective := newList;
    }

    method GetEffectiveSchedule(t: JobType, original: string, checksum: nat) returns (schedule: string)
      modifies this`effective
      ensures (effective, schedule) == GetEffective(old(effective), t, original, checksum)
    {
      if !IsNonStandard(original) || !IsRandom(original) {
        return original;
      }
      var r := RandomizeSchedule(checksum, original);
      if !r.ok {
        return original;
      }
      SetEffectiveSchedule(t, r.schedule);
      return r.schedule;
    }

    method HandleType(sch: Schedule, t: JobType, o: Outside) returns (ok: bool)
      modifies this, scheduler
      ensures (Value(), ok) == ProcessType(old(Value()), sch, t, o)
    {
      var key, ns := KeyOf(sch, t), sch.namespace;
      var has := scheduler.HasSchedule(key);
      if t !in sch.specs {
        if has {
          gauge := Add(gauge, ns, -1);
        }
        scheduler.RemoveSchedule(key);
        CleanupEffectiveSchedules(t, "");
        return true;
      }
      if !has {
        gauge := Add(gauge, ns, 1);
      }
      CleanupEffectiveSchedules(t, sch.specs[t]);
      var schedule := GetEffectiveSchedule(t, sch.specs[t], o.checksum(t));
      ok := scheduler.SetSchedule(key, schedule, o.parses(schedule));
      if !has && !ok {
        failedFirst := Add(failedFirst, ns, 1);
      }
    }

    method CreateJobList(sch: Schedule, order: seq<JobType>, o: Outside) returns (ok: bool)
      modifies this, scheduler
      ensures (Value(), ok) == CreateJobs(old(Value()), sch, order, o)
    {
      for i := 0 to |order|
        invariant CreateJobs(old(Value()), sch, order, o) == CreateJobs(Value(), sch, order[i..], o)
      {
        assert order[i..][0] == order[i] && order[i..][1..] == order[i + 1..];
        var done := HandleType(sch, order[i], o);
        if !done {
          return false;
        }
      }
      return true;
    }

    method DeprovisionSchedule(sch: Schedule, order: seq<JobType>)
      modifies this, scheduler
      ensures Value() == Deprovision(old(Value()), sch, order)
    {
      for i := 0 to |order|
        invariant Deprovision(old(Value()), sch, order) == Deprovision(Value(), sch, order[i..])
      {
        assert order[i..][0] == order[i] && order[i..][1..] == order[i + 1..];
        var key := KeyOf(sch, order[i]);
        if key in scheduler.schedules {
          deprovisioned := Add(deprovisioned, sch.namespace, 1);
        }
        scheduler.RemoveSchedule(key);
      }
    }
  }
}
