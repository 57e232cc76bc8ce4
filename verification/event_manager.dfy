/** The EventManager: a scene-wide registry of named events. There is one
    dictionary per payload type (`Vector3`, `bool`, `float`, `int` and none),
    each mapping an event name to the `UnityEvent` that holds its listeners.
    The five overloads of `StartListening`, `StopListening` and
    `TriggerEvent` are modelled as one operation each, with the payload type
    as a parameter; a listener is an id, a `UnityEvent` its listener list. */
module Events {
  import opened UnityMath

  /** Which of the five dictionaries an overload works on. */
  datatype PayloadKind = VectorPayload | BoolPayload | FloatPayload | IntPayload | NoPayload

  const AllKinds: set<PayloadKind> := {VectorPayload, BoolPayload, FloatPayload, IntPayload, NoPayload}

  /** The argument `TriggerEvent` passes to the listeners. */
  datatype Payload = VectorValue(v: Vector3) | BoolValue(b: bool) | FloatValue(f: real) | IntValue(i: int) | NoValue

  function KindOf(p: Payload): PayloadKind
  {
    match p
    case VectorValue(_) => VectorPayload
    case BoolValue(_) => BoolPayload
    case FloatValue(_) => FloatPayload
    case IntValue(_) => IntPayload
    case NoValue => NoPayload
  }

  type ListenerId = nat

  /** One dictionary: event name to listener list. */
  type Table = map<string, seq<ListenerId>>

  /** One listener called with one payload. */
  datatype Invocation = Invocation(listener: ListenerId, payload: Payload)

  // ---------------------------------------------------------------------
  // Listener lists

  /** `UnityEvent.RemoveListener(l)`: every registration of `l` goes, and
      every other listener keeps all its registrations, in their order
      (`WithoutAppended`). */
  function Without(listeners: seq<ListenerId>, l: ListenerId): (r: seq<ListenerId>)
    ensures |r| <= |listeners|
    ensures forall x :: x in r <==> x in listeners && x != l
    ensures l !in listeners ==> r == listeners
    ensures forall x | x != l :: multiset(r)[x] == multiset(listeners)[x]
  {
    if listeners == [] then []
    else
      assert listeners == [listeners[0]] + listeners[1..];
      if listeners[0] == l then Without(listeners[1..], l)
      else [listeners[0]] + Without(listeners[1..], l)
  }

  /** Removing from a list that ends in a new registration of `l` takes
      that registration away too; removing twice is removing once. */
  lemma {:induction false} WithoutAppended(listeners: seq<ListenerId>, l: ListenerId, m: ListenerId)
    ensures Without(listeners + [m], l) == Without(listeners, l) + (if m == l then [] else [m])
    ensures Without(Without(listeners, l), l) == Without(listeners, l)
    decreases |listeners|
  {
    if listeners != [] {
      assert (listeners + [m])[1..] == listeners[1..] + [m];
      WithoutAppended(listeners[1..], l, m);
    }
  }

  // ---------------------------------------------------------------------
  // Table operations

  /** `StartListening(name, l)` on one dictionary: `l` joins the end of the
      name's list, which is created when the name is new. */
  function Listened(t: Table, name: string, l: ListenerId): Table
  {
    if name in t then t[name := t[name] + [l]] else t[name := [l]]
  }

  /** `StopListening(name, l)` on one dictionary: an unknown name changes
      nothing, and a known one keeps its entry. */
  function Unlistened(t: Table, name: string, l: ListenerId): Table
  {
    if name in t then t[name := Without(t[name], l)] else t
  }

  /** `TriggerEvent(name, payload)` on one dictionary: every listener of
      the name, in order, called with the payload; nobody for an unknown
      name. */
  function Invocations(t: Table, name: string, payload: Payload): (r: seq<Invocation>)
    ensures name !in t ==> r == []
    ensures name in t ==> |r| == |t[name]|
    ensures name in t ==> forall i | 0 <= i < |r| :: r[i] == Invocation(t[name][i], payload)
  {
    if name in t then seq(|t[name]|, i requires 0 <= i < |t[name]| => Invocation(t[name][i], payload)) else []
  }

  /** Starting leaves the name present with `l` appended and every other
      name alone. */
  lemma ListenedMeaning(t: Table, name: string, l: ListenerId)
    ensures var r := Listened(t, name, l);
      && r.Keys == t.Keys + {name}
      && r[name] == (if name in t then t[name] else []) + [l]
      && forall n | n in t && n != name :: r[n] == t[n]
  {
  }

  /** Stopping never creates or removes a name, leaves no registration of
      `l` on the name, and leaves every other name alone. */
  lemma UnlistenedMeaning(t: Table, name: string, l: ListenerId)
    ensures var r := Unlistened(t, name, l);
      && r.Keys == t.Keys
      && (name !in t ==> r == t)
      && (name in t ==> l !in r[name] && forall x | x in t[name] && x != l :: x in r[name])
      && forall n | n in t && n != name :: r[n] == t[n]
  {
  }

  /** Starting and then stopping the same listener undoes the start on the
      listener list, but the name stays: on a fresh name its list ends up
      empty, and a listener that was not registered leaves the table as it
      would have been with the name added. */
  lemma StartThenStop(t: Table, name: string, l: ListenerId)
    ensures var r := Unlistened(Listened(t, name, l), name, l);
      && name in r
      && (name !in t ==> r == t[name := []])
      && (name in t ==> r == t[name := Without(t[name], l)])
  {
    if name in t {
      WithoutAppended(t[name], l, l);
      assert Without(t[name] + [l], l) == Without(t[name], l) + [];
      assert Without(t[name], l) + [] == Without(t[name], l);
    } else {
      assert [l][1..] == [];
      assert Without([l], l) == [];
    }
  }
  /** What triggering sees after (un)registering: a listener that starts
      listening is called last, once more than before; once it stops it is
      not called at all for that name; other names trigger as before. */
  lemma TriggerSeesListeners(t: Table, name: string, other: string, l: ListenerId, payload: Payload)
    ensures Invocations(Listened(t, name, l), name, payload) == Invocations(t, name, payload) + [Invocation(l, payload)]
    ensures forall i | 0 <= i < |Invocations(Unlistened(t, name, l), name, payload)| ::
              Invocations(Unlistened(t, name, l), name, payload)[i].listener != l
    ensures other != name ==>
      && Invocations(Listened(t, name, l), other, payload) == Invocations(t, other, payload)
      && Invocations(Unlistened(t, name, l), other, payload) == Invocations(t, other, payload)
  {
    var r := Unlistened(t, name, l);
    if name in t {
      forall i | 0 <= i < |Invocations(r, name, payload)|
        ensures Invocations(r, name, payload)[i].listener != l
      {
        assert Invocations(r, name, payload)[i].listener == Without(t[name], l)[i];
        assert Without(t[name], l)[i] in Without(t[name], l);
      }
    }
  }


  // ---------------------------------------------------------------------
  // The manager

  /** The five dictionaries, `None` while still null. */
  datatype Dictionaries = Dictionaries(vector: Option<Table>, boolean: Option<Table>, float: Option<Table>,
                                       integer: Option<Table>, none: Option<Table>)
  {
    /** The dictionary of one payload type. */
    function Get(kind: PayloadKind): Option<Table>
    {
      match kind
      case VectorPayload => vector
      case BoolPayload => boolean
      case FloatPayload => float
      case IntPayload => integer
      case NoPayload => none
    }

    /** The dictionaries with the one of a payload type replaced. */
    function Set(kind: PayloadKind, t: Table): (r: Dictionaries)
      ensures r.Get(kind) == Some(t)
      ensures forall k | k != kind :: r.Get(k) == Get(k)
    {
      match kind
      case VectorPayload => this.(vector := Some(t))
      case BoolPayload => this.(boolean := Some(t))
      case FloatPayload => this.(float := Some(t))
      case IntPayload => this.(integer := Some(t))
      case NoPayload => this.(none := Some(t))
    }

    /** Every dictionary exists. */
    predicate Complete()
    {
      vector.Some? && boolean.Some? && float.Some? && integer.Some? && none.Some?
    }
  }

  const NoDictionaries := Dictionaries(None, None, None, None, None)

  /** A dictionary, or a new empty one where it is null. */
  function OrEmpty(t: Option<Table>): Table
  {
    if t.Some? then t.value else map[]
  }

  /** `Init`: create each missing dictionary, keep the existing ones. */
  function Initialised(d: Dictionaries): Dictionaries
  {
    Dictionaries(Some(OrEmpty(d.vector)), Some(OrEmpty(d.boolean)), Some(OrEmpty(d.float)),
                 Some(OrEmpty(d.integer)), Some(OrEmpty(d.none)))
  }

  /** Init never replaces a dictionary, creates only missing ones, and is
      idempotent. */
  lemma InitMeaning(d: Dictionaries)
    ensures Initialised(d).Complete()
    ensures forall k | d.Get(k).Some? :: Initialised(d).Get(k) == d.Get(k)
    ensures forall k | d.Get(k).None? :: Initialised(d).Get(k) == Some(map[])
    ensures d.Complete() ==> Initialised(d) == d
    ensures Initialised(Initialised(d)) == Initialised(d)
  {
    forall k | d.Get(k).Some?
      ensures Initialised(d).Get(k) == d.Get(k)
    {
      match k
      case VectorPayload =>
      case BoolPayload =>
      case FloatPayload =>
      case IntPayload =>
      case NoPayload =>
    }
    forall k | d.Get(k).None?
      ensures Initialised(d).Get(k) == Some(map[])
    {
      match k
      case VectorPayload =>
      case BoolPayload =>
      case FloatPayload =>
      case IntPayload =>
      case NoPayload =>
    }
  }

  /** The manager's state: whether the static `eventManager` reference is
      set, and the dictionaries. */
  datatype EventVars = EventVars(located: bool, dictionaries: Dictionaries)

  /** Once the manager is located every dictionary exists. */
  predicate Valid(v: EventVars)
  {
    v.located ==> v.dictionaries.Complete()
  }

  /** The `instance` getter: the first use that finds a manager in the
      scene records it and runs `Init`; without one it stays unset (and the
      getter returns null). */
  function Instanced(v: EventVars, inScene: bool): (r: EventVars)
    ensures Valid(r) || !Valid(v)
    ensures r.located <==> v.located || inScene
  {
    if v.located || !inScene then v else EventVars(true, Initialised(v.dictionaries))
  }

  /** The result of a `StartListening` overload: a null instance throws
      before anything changes. */
  function StartedListening(v: EventVars, inScene: bool, kind: PayloadKind, name: string, l: ListenerId): EventVars
    requires Valid(v)
  {
    var w := Instanced(v, inScene);
    if !w.located then w
    else w.(dictionaries := w.dictionaries.Set(kind, Listened(w.dictionaries.Get(kind).value, name, l)))
  }

  /** The result of a `StopListening` overload: nothing at all unless the
      manager is already located. */
  function StoppedListening(v: EventVars, kind: PayloadKind, name: string, l: ListenerId): EventVars
    requires Valid(v)
  {
    if !v.located then v
    else v.(dictionaries := v.dictionaries.Set(kind, Unlistened(v.dictionaries.Get(kind).value, name, l)))
  }

  /** The five dictionaries are independent: starting on one payload type
      touches no other dictionary but to create missing ones, and on one
      name no other name; it keeps the manager valid. */
  lemma StartIsIndependent(v: EventVars, inScene: bool, kind: PayloadKind, name: string, l: ListenerId)
    requires Valid(v)
    ensures var s := StartedListening(v, inScene, kind, name, l);
      && Valid(s)
      && (s.located <==> v.located || inScene)
      && (!s.located ==> s == v)
      && (s.located ==> s.dictionaries.Get(kind) == Some(Listened(OrEmpty(v.dictionaries.Get(kind)), name, l)))
      && (forall k | k != kind && v.dictionaries.Get(k).Some? :: s.dictionaries.Get(k) == v.dictionaries.Get(k))
  {
    InitMeaning(v.dictionaries);
  }

  /** Stopping likewise touches only its own dictionary and name, and does
      nothing at all before the manager is located or on an unknown name. */
  lemma StopIsIndependent(v: EventVars, kind: PayloadKind, name: string, l: ListenerId)
    requires Valid(v)
    ensures var s := StoppedListening(v, kind, name, l);
      && Valid(s)
      && (forall k | k != kind :: s.dictionaries.Get(k) == v.dictionaries.Get(k))
      && (!v.located ==> s == v)
      && (v.located ==> s.dictionaries.Get(kind) == Some(Unlistened(v.dictionaries.Get(kind).value, name, l)))
      && (v.located && name !in v.dictionaries.Get(kind).value ==> s == v)
  {
    if v.located && name !in v.dictionaries.Get(kind).value {
      var d := v.dictionaries;
      match kind
      case VectorPayload => assert d.Set(kind, d.Get(kind).value) == d;
      case BoolPayload => assert d.Set(kind, d.Get(kind).value) == d;
      case FloatPayload => assert d.Set(kind, d.Get(kind).value) == d;
      case IntPayload => assert d.Set(kind, d.Get(kind).value) == d;
      case NoPayload => assert d.Set(kind, d.Get(kind).value) == d;
    }
  }

  class EventManager {
    /** Whether the scene holds an active manager for `FindObjectOfType`. */
    const inScene: bool
    /** The static `eventManager` reference is set. */
    var located: bool
    var dictionaries: Dictionaries

    function State(): EventVars
      reads this
    {
      EventVars(located, dictionaries)
    }

    /** A scene before any event call: no manager located, every
        dictionary null. */
    constructor (inScene: bool)
      ensures this.inScene == inScene
      ensures State() == EventVars(false, NoDictionaries)
    {
      this.inScene := inScene;
      located := false;
      dictionaries := NoDictionaries;
    }

    method Init()
      modifies this
      ensures State() == old(State()).(dictionaries := Initialised(old(dictionaries)))
    {
      if dictionaries.vector.None? {
        dictionaries := dictionaries.(vector := Some(map[]));
      }
      if dictionaries.boolean.None? {
        dictionaries := dictionaries.(boolean := Some(map[]));
      }
      if dictionaries.float.None? {
        dictionaries := dictionaries.(float := Some(map[]));
      }
      if dictionaries.integer.None? {
        dictionaries := dictionaries.(integer := Some(map[]));
      }
      if dictionaries.none.None? {
        dictionaries := dictionaries.(none := Some(map[]));
      }
    }

    /** The `instance` getter; `found` is false where it returns null. */
    method Instance() returns (found: bool)
      requires Valid(State())
      modifies this
      ensures Valid(State())
      ensures State() == Instanced(old(State()), inScene)
      ensures found == located
    {
      if !located {
        if inScene {
          located := true;
          Init();
        }
      }
      found := located;
    }

    /** `StartListening(name, listener)` for one payload type; `ok` is false
        where the null instance throws. */
    method StartListening(kind: PayloadKind, name: string, l: ListenerId) returns (ok: bool)
      requires Valid(State())
      modifies this
      ensures Valid(State())
      ensures State() == StartedListening(old(State()), inScene, kind, name, l)
      ensures ok == located
    {
      ok := Instance();
      if !ok {
        return;
      }
      var table := dictionaries.Get(kind).value;
      if name in table {
        dictionaries := dictionaries.Set(kind, table[name := table[name] + [l]]);
      } else {
        var listeners := [l];
        dictionaries := dictionaries.Set(kind, table[name := listeners]);
      }
    }

    /** `StopListening(name, listener)` for one payload type. */
    method StopListening(kind: PayloadKind, name: string, l: ListenerId)
      requires Valid(State())
      modifies this
      ensures Valid(State())
      ensures State() == StoppedListening(old(State()), kind, name, l)
    {
      if !located {
        return;
      }
      var table := dictionaries.Get(kind).value;
      if name in table {
        dictionaries := dictionaries.Set(kind, table[name := Without(table[name], l)]);
      }
    }

    /** `TriggerEvent(name, payload)`: the calls made, in order; `ok` is
        false where the null instance throws. */
    method TriggerEvent(name: string, payload: Payload) returns (ok: bool, calls: seq<Invocation>)
      requires Valid(State())
      modifies this
      ensures Valid(State())
      ensures State() == Instanced(old(State()), inScene)
      ensures ok == located
      ensures calls == if ok then Invocations(dictionaries.Get(KindOf(payload)).value, name, payload) else []
    {
      ok := Instance();
      calls := [];
      if !ok {
        return;
      }
      var table := dictionaries.Get(KindOf(payload)).value;
      if name in table {
        var listeners := table[name];
        var i := 0;
        while i < |listeners|
          invariant 0 <= i <= |listeners|
          invariant |calls| == i
          invariant forall j | 0 <= j < i :: calls[j] == Invocation(listeners[j], payload)
        {
          calls := calls + [Invocation(listeners[i], payload)];
          i := i + 1;
        }
      }
    }
  }
}
