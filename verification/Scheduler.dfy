/**
  The schedule registry and the cron table behind it (operator/scheduler/scheduler.go). Cron gives
  every entry a new id and never reuses one; adding an entry fails when its definition does not
  parse, and removing an id that is not in the table does nothing.
 */
module Scheduler {
  import opened Wrappers

  datatype Ref = Ref(entry: nat, schedule: string)

  /** A live cron entry: the key whose function it runs, and its definition. */
  datatype Entry = Entry(key: string, schedule: string)

  datatype Registry = Registry(schedules: map<string, Ref>, cron: map<nat, Entry>, nextId: nat) {

    /** Without the entry the key refers to. */
    function Unhooked(key: string): Registry {
      if key in schedules then this.(cron := cron - {schedules[key].entry}) else this
    }

    /** With a new entry for the key. */
    function Hooked(key: string, schedule: string): Registry {
      Registry(schedules[key := Ref(nextId, schedule)], cron[nextId := Entry(key, schedule)], nextId + 1)
    }

    /** SetSchedule. A definition that does not parse leaves the key with a reference to a removed entry. */
    function Set(key: string, schedule: string, parses: bool): Registry {
      if parses then Unhooked(key).Hooked(key, schedule) else Unhooked(key)
    }

    function Remove(key: string): Registry {
      Unhooked(key).(schedules := schedules - {key})
    }

    predicate Live(key: string) {
      key in schedules && schedules[key].entry in cron
    }

    /** Every live entry belongs to exactly one key, with the same definition, and no id is shared. */
    predicate Valid() {
      && (forall k :: k in schedules ==> schedules[k].entry < nextId)
      && (forall j, k :: j in schedules && k in schedules && schedules[j].entry == schedules[k].entry ==> j == k)
      && (forall id :: id in cron ==>
            && id < nextId
            && cron[id].key in schedules
            && schedules[cron[id].key] == Ref(id, cron[id].schedule))
    }
  }

  const Empty := Registry(map[], map[], 1)

  /** The entries that run a key's function. */
  function EntriesOf(r: Registry, key: string): set<nat> {
    set id | id in r.cron && r.cron[id].key == key
  }

  /** In a valid registry a key has one live entry or none, and it is the one its reference names. */
  lemma OneEntryPerKey(r: Registry, key: string)
    requires r.Valid()
    ensures EntriesOf(r, key) == if r.Live(key) then {r.schedules[key].entry} else {}
    ensures r.Live(key) ==> r.cron[r.schedules[key].entry] == Entry(key, r.schedules[key].schedule)
  {
    forall id | id in EntriesOf(r, key)
      ensures r.Live(key) && id == r.schedules[key].entry
    {
    }
    if r.Live(key) {
      var id := r.schedules[key].entry;
      var owner := r.cron[id].key;
      assert r.schedules[owner].entry == id;
    }
  }

  /** The other keys' entries are in both registries, and the same keys are live. */
  ghost predicate SameOthers(r: Registry, s: Registry, key: string) {
    && (forall id :: id in r.cron && r.cron[id].key != key ==> id in s.cron && s.cron[id] == r.cron[id])
    && (forall k :: k != key && k in r.schedules ==> k in s.schedules && s.schedules[k] == r.schedules[k])
    && (forall k :: k != key ==> (s.Live(k) <==> r.Live(k)))
  }

  /** Unhooking a key takes away its own entry and no other, however stale its reference is. */
  lemma UnhookKeeps(r: Registry, key: string)
    requires r.Valid()
    ensures var s := r.Unhooked(key);
            s.Valid() && !s.Live(key) && SameOthers(r, s, key)
  {
    OneEntryPerKey(r, key);
  }

  /** A new entry gets an id that no key refers to, not even with a stale reference. */
  lemma HookKeeps(r: Registry, key: string, schedule: string)
    requires r.Valid() && !r.Live(key)
    ensures var s := r.Hooked(key, schedule);
            s.Valid() && s.Live(key) && SameOthers(r, s, key)
  {
    var s := r.Hooked(key, schedule);
    forall id | id in s.cron
      ensures id < s.nextId && s.cron[id].key in s.schedules && s.schedules[s.cron[id].key] == Ref(id, s.cron[id].schedule)
    {
      assert id != r.nextId ==> r.cron[id].key != key;
    }
    forall k | k != key
      ensures s.Live(k) <==> r.Live(k)
    {
    }
    forall j, k | j in s.schedules && k in s.schedules && s.schedules[j].entry == s.schedules[k].entry
      ensures j == k
    {
      assert j != key ==> r.schedules[j].entry < r.nextId;
      assert k != key ==> r.schedules[k].entry < r.nextId;
    }
  }

  /** Each call keeps the registry valid and touches no entry of another key. */
  lemma SetKeeps(r: Registry, key: string, schedule: string, parses: bool)
    requires r.Valid()
    ensures var s := r.Set(key, schedule, parses);
            s.Valid() && (s.Live(key) <==> parses) && SameOthers(r, s, key)
  {
    UnhookKeeps(r, key);
    if parses {
      HookKeeps(r.Unhooked(key), key, schedule);
      SameOthersChain(r, r.Unhooked(key), r.Unhooked(key).Hooked(key, schedule), key);
    }
  }

  lemma SameOthersChain(r: Registry, s: Registry, t: Registry, key: string)
    requires SameOthers(r, s, key) && SameOthers(s, t, key)
    ensures SameOthers(r, t, key)
  {
    forall k | k != key
      ensures t.Live(k) <==> r.Live(k)
    {
      assert s.Live(k) <==> r.Live(k);
    }
  }

  lemma DropKeeps(r: Registry, key: string)
    requires r.Valid() && !r.Live(key)
    ensures var s := r.(schedules := r.schedules - {key});
            s.Valid() && SameOthers(r, s, key)
  {
    var s := r.(schedules := r.schedules - {key});
    forall id | id in s.cron
      ensures s.cron[id].key in s.schedules && s.schedules[s.cron[id].key] == Ref(id, s.cron[id].schedule)
    {
      assert r.cron[id].key != key;
    }
    forall k | k != key
      ensures s.Live(k) <==> r.Live(k)
    {
    }
  }

  lemma RemoveKeeps(r: Registry, key: string)
    requires r.Valid()
    ensures var s := r.Remove(key);
            s.Valid() && key !in s.schedules && SameOthers(r, s, key)
  {
    UnhookKeeps(r, key);
    DropKeeps(r.Unhooked(key), key);
    SameOthersChain(r, r.Unhooked(key), r.Remove(key), key);
  }

  // ---- Runs ----

  datatype Op = SetOp(key: string, schedule: string) | RemoveOp(key: string)

  function Apply(r: Registry, op: Op, parses: string -> bool): Registry {
    match op
    case SetOp(k, s) => r.Set(k, s, parses(s))
    case RemoveOp(k) => r.Remove(k)
  }

  function After(ops: seq<Op>, parses: string -> bool): Registry {
    if ops == [] then Empty else Apply(After(ops[..|ops| - 1], parses), ops[|ops| - 1], parses)
  }

  /** The definition of the key's last call, if that call was a set that parsed. */
  function LastSet(ops: seq<Op>, key: string, parses: string -> bool): Option<string> {
    if ops == [] then None
    else
      var op := ops[|ops| - 1];
      if op.key != key then LastSet(ops[..|ops| - 1], key, parses)
      else if op.SetOp? && parses(op.schedule) then Some(op.schedule)
      else None
  }

  lemma {:induction false} RunIsValid(ops: seq<Op>, parses: string -> bool)
    ensures After(ops, parses).Valid()
  {
    if ops != [] {
      RunIsValid(ops[..|ops| - 1], parses);
      ApplyKeeps(After(ops[..|ops| - 1], parses), ops[|ops| - 1], parses);
    }
  }

  lemma ApplyKeeps(r: Registry, op: Op, parses: string -> bool)
    requires r.Valid()
    ensures var s := Apply(r, op, parses);
            && s.Valid() && SameOthers(r, s, op.key)
            && (s.Live(op.key) <==> op.SetOp? && parses(op.schedule))
            && (s.Live(op.key) ==> s.schedules[op.key].schedule == op.schedule)
  {
    match op
    case SetOp(k, d) => SetKeeps(r, k, d, parses(d));
    case RemoveOp(k) => RemoveKeeps(r, k);
  }

  lemma {:induction false} LiveIffLastSet(ops: seq<Op>, key: string, parses: string -> bool)
    ensures var r := After(ops, parses);
            && (r.Live(key) <==> LastSet(ops, key, parses).Some?)
            && (r.Live(key) ==> r.schedules[key].schedule == LastSet(ops, key, parses).value)
  {
    if ops != [] {
      LiveIffLastSet(ops[..|ops| - 1], key, parses);
      RunIsValid(ops[..|ops| - 1], parses);
      ApplyKeeps(After(ops[..|ops| - 1], parses), ops[|ops| - 1], parses);
    }
  }

  /**
    After any sequence of calls the registry is valid, and a key has a live cron entry, exactly one
    and with that definition, if and only if its last call was a successful set.
   */
  lemma RegistryMatchesCron(ops: seq<Op>, key: string, parses: string -> bool)
    ensures var r := After(ops, parses);
            && r.Valid()
            && |EntriesOf(r, key)| == (if LastSet(ops, key, parses).Some? then 1 else 0)
            && (forall id :: id in EntriesOf(r, key) ==>
                  LastSet(ops, key, parses) == Some(r.cron[id].schedule) && r.schedules[key] == Ref(id, r.cron[id].schedule))
  {
    RunIsValid(ops, parses);
    LiveIffLastSet(ops, key, parses);
    OneEntryPerKey(After(ops, parses), key);
  }

  class CronScheduler {
    var schedules: map<string, Ref>
    var cron: map<nat, Entry>
    var nextId: nat

    constructor ()
      ensures Value() == Empty
    {
      schedules, cron, nextId := map[], map[], 1;
    }

    ghost function Value(): Registry
      reads this
    {
      Registry(schedules, cron, nextId)
    }

    /** `parses` is cron's answer to the definition; false stands for the error return. */
    method SetSchedule(key: string, schedule: string, parses: bool) returns (ok: bool)
      modifies this
      ensures ok == parses && Value() == old(Value()).Set(key, schedule, parses)
    {
      if key in schedules {
        cron := cron - {schedules[key].entry};
      }
      if !parses {
        return false;
      }
      var id := nextId;
      nextId := nextId + 1;
      cron := cron[id := Entry(key, schedule)];
      schedules := schedules[key := Ref(id, schedule)];
      return true;
    }

    method RemoveSchedule(key: string)
      modifies this
      ensures Value() == old(Value()).Remove(key)
    {
      if key !in schedules {
        assert schedules - {key} == schedules;
        return;
      }
      var ref := schedules[key];
      schedules := schedules - {key};
      cron := cron - {ref.entry};
    }

    method HasSchedule(key: string) returns (b: bool)
      ensures b <==> key in schedules
    {
      b := key in schedules;
    }
  }
}
