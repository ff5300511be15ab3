/**
 A queue stored in etcd and used by any number of clients at once. Registering and updating are loops of
 a read and a transaction that compares the modification revision of what was read; every read and every
 transaction is one step, and the steps of all clients interleave freely. The reboot queue and the repair
 queue are two instances of it.
 */
module Storage {
  import opened Config

  /** A stored value with the revision of its last modification. */
  datatype Versioned<T> = Versioned(value: T, modRev: nat)

  datatype Record = Record(index: nat, data: string)

  datatype Client =
    | Resting
    | Registering(data: string)
    | RegisterRead(data: string, index: nat, rev: nat)     // read the write index, about to commit
    | Updating(record: Record)
    | UpdateRead(record: Record, rev: nat)                 // read the entry, about to commit

  datatype State = State(
    rev: nat,
    writeIndex: Option<Versioned<nat>>,
    entries: map<nat, Versioned<Record>>,
    clients: map<nat, Client>,
    registered: seq<nat>)     // history: the index each successful registration got, in the order of success

  datatype Event =
    | StartRegister(client: nat, data: string)
    | StartUpdate(client: nat, index: nat, data: string)
    | Get(client: nat)
    | Commit(client: nat)
    | Delete(index: nat)

  const Init := State(0, None, map[], map[], [])

  // ----- Steps -----

  function ClientOf(s: State, c: nat): Client {
    if c in s.clients then s.clients[c] else Resting
  }

  function SetClient(s: State, c: nat, l: Client): State {
    s.(clients := s.clients[c := l])
  }

  /** The modification revision of a key is zero while the key does not exist. */
  function EntryRev(s: State, i: nat): nat {
    if i in s.entries then s.entries[i].modRev else 0
  }

  function WriteIndexRev(s: State): nat {
    if s.writeIndex.Some? then s.writeIndex.value.modRev else 0
  }

  function GetStep(s: State, c: nat): State {
    match ClientOf(s, c)
    case Registering(data) =>
      SetClient(s, c, match s.writeIndex
                      case None => RegisterRead(data, 0, 0)
                      case Some(w) => RegisterRead(data, w.value, w.modRev))
    case Updating(r) =>
      SetClient(s, c, if r.index in s.entries then UpdateRead(r, s.entries[r.index].modRev) else Resting)
    case _ => s
  }

  function CommitStep(s: State, c: nat): State {
    match ClientOf(s, c)
    case RegisterRead(data, i, rev) =>
      if WriteIndexRev(s) != rev then SetClient(s, c, Registering(data))
      else
        SetClient(s, c, Resting).(
          rev := s.rev + 1,
          writeIndex := Some(Versioned(i + 1, s.rev + 1)),
          entries := s.entries[i := Versioned(Record(i, data), s.rev + 1)],
          registered := s.registered + [i])
    case UpdateRead(r, rev) =>
      if EntryRev(s, r.index) != rev then SetClient(s, c, Updating(r))
      else
        SetClient(s, c, Resting).(rev := s.rev + 1, entries := s.entries[r.index := Versioned(r, s.rev + 1)])
    case _ => s
  }

  function Step(s: State, ev: Event): State {
    match ev
    case StartRegister(c, data) => if ClientOf(s, c).Resting? then SetClient(s, c, Registering(data)) else s
    case StartUpdate(c, i, data) => if ClientOf(s, c).Resting? then SetClient(s, c, Updating(Record(i, data))) else s
    case Get(c) => GetStep(s, c)
    case Commit(c) => CommitStep(s, c)
    case Delete(i) => s.(rev := s.rev + 1, entries := s.entries - {i})
  }

  function RunAll(s: State, evs: seq<Event>): State {
    if evs == [] then s else Step(RunAll(s, evs[..|evs| - 1]), evs[|evs| - 1])
  }

  // ----- The queue that the clients believe in -----

  /** Entries by index, and the next index to hand out. */
  datatype Queue = Queue(entries: map<nat, string>, next: nat)

  datatype Action = Nothing | Enqueue(data: string) | Overwrite(index: nat, data: string) | Remove(index: nat)

  function Apply(q: Queue, a: Action): Queue {
    match a
    case Nothing => q
    case Enqueue(data) => Queue(q.entries[q.next := data], q.next + 1)
    case Overwrite(i, data) => if i in q.entries then q.(entries := q.entries[i := data]) else q
    case Remove(i) => q.(entries := q.entries - {i})
  }

  function Next(s: State): nat {
    if s.writeIndex.Some? then s.writeIndex.value.value else 0
  }

  function Abstract(s: State): Queue {
    Queue(map i | i in s.entries :: s.entries[i].value.data, Next(s))
  }

  /** The atomic effect of a step, if it has one. */
  function EffectOf(s: State, ev: Event): Action {
    match ev
    case Delete(i) => Remove(i)
    case Commit(c) =>
      (match ClientOf(s, c)
       case RegisterRead(data, _, rev) => if WriteIndexRev(s) == rev then Enqueue(data) else Nothing
       case UpdateRead(r, rev) => if EntryRev(s, r.index) == rev then Overwrite(r.index, r.data) else Nothing
       case _ => Nothing)
    case _ => Nothing
  }

  // ----- The inductive invariant -----

  /** What a client has read is the present state whenever the revision has not moved on. */
  predicate ClientOk(s: State, l: Client) {
    match l
    case RegisterRead(_, i, rev) => rev <= s.rev && (WriteIndexRev(s) == rev ==> i == Next(s))
    case UpdateRead(_, rev) => 0 < rev <= s.rev
    case _ => true
  }

  predicate StoreOk(s: State) {
    && (s.writeIndex.Some? ==> 0 < s.writeIndex.value.modRev <= s.rev)
    && (forall i :: i in s.entries ==>
          i < Next(s) && s.entries[i].value.index == i && 0 < s.entries[i].modRev <= s.rev)
    && Next(s) == |s.registered|
    && (forall k :: 0 <= k < |s.registered| ==> s.registered[k] == k)
  }

  predicate Inv(s: State) {
    StoreOk(s) && forall c :: c in s.clients ==> ClientOk(s, s.clients[c])
  }

  lemma RegisterCommit(s: State, c: nat, data: string, i: nat, rev: nat)
    requires Inv(s) && ClientOf(s, c) == RegisterRead(data, i, rev) && WriteIndexRev(s) == rev
    ensures Inv(CommitStep(s, c))
    ensures i == Next(s) && i !in s.entries
    ensures Abstract(CommitStep(s, c)) == Apply(Abstract(s), Enqueue(data))
  {
    var s' := CommitStep(s, c);
    assert ClientOk(s, s.clients[c]);
    forall d | d in s'.clients ensures ClientOk(s', s'.clients[d]) {
      if d != c { assert ClientOk(s, s.clients[d]); }
    }
  }

  lemma UpdateCommit(s: State, c: nat, r: Record, rev: nat)
    requires Inv(s) && ClientOf(s, c) == UpdateRead(r, rev) && EntryRev(s, r.index) == rev
    ensures Inv(CommitStep(s, c))
    ensures r.index in s.entries
    ensures Abstract(CommitStep(s, c)) == Apply(Abstract(s), Overwrite(r.index, r.data))
  {
    var s' := CommitStep(s, c);
    assert ClientOk(s, s.clients[c]);
    forall d | d in s'.clients ensures ClientOk(s', s'.clients[d]) {
      if d != c { assert ClientOk(s, s.clients[d]); }
    }
  }

  lemma QuietStep(s: State, ev: Event)
    requires Inv(s) && EffectOf(s, ev) == Nothing
    ensures Inv(Step(s, ev)) && Abstract(Step(s, ev)) == Abstract(s)
  {
    var s' := Step(s, ev);
    forall d | d in s'.clients ensures ClientOk(s', s'.clients[d]) {
      if d in s.clients { assert ClientOk(s, s.clients[d]); }
    }
  }

  lemma DeleteStep(s: State, i: nat)
    requires Inv(s)
    ensures Inv(Step(s, Delete(i)))
    ensures Abstract(Step(s, Delete(i))) == Apply(Abstract(s), Remove(i))
  {
    var s' := Step(s, Delete(i));
    forall d | d in s'.clients ensures ClientOk(s', s'.clients[d]) { assert ClientOk(s, s.clients[d]); }
  }

  predicate IsRegistering(l: Client) {
    l.Registering? || l.RegisterRead?
  }

  predicate IsUpdating(l: Client) {
    l.Updating? || l.UpdateRead?
  }

  lemma EndsWithEffect(s: State, ev: Event, c: nat)
    requires Inv(s) && ClientOf(Step(s, ev), c).Resting?
    ensures IsRegistering(ClientOf(s, c)) ==> EffectOf(s, ev) == Enqueue(ClientOf(s, c).data)
    ensures IsUpdating(ClientOf(s, c)) ==>
      var r := ClientOf(s, c).record; EffectOf(s, ev) == Overwrite(r.index, r.data) || r.index !in s.entries
  {
  }

  /** Every step of the clients acts on the queue like one atomic action, or not at all; a call ends only with its action. */
  lemma StepRefines(s: State, ev: Event)
    requires Inv(s)
    ensures Inv(Step(s, ev))
    ensures Abstract(Step(s, ev)) == Apply(Abstract(s), EffectOf(s, ev))
    ensures forall c :: IsRegistering(ClientOf(s, c)) && ClientOf(Step(s, ev), c).Resting? ==>
      EffectOf(s, ev) == Enqueue(ClientOf(s, c).data)
    ensures forall c :: IsUpdating(ClientOf(s, c)) && ClientOf(Step(s, ev), c).Resting? ==>
      var r := ClientOf(s, c).record; EffectOf(s, ev) == Overwrite(r.index, r.data) || r.index !in s.entries
  {
    forall c | ClientOf(Step(s, ev), c).Resting?
      ensures IsRegistering(ClientOf(s, c)) ==> EffectOf(s, ev) == Enqueue(ClientOf(s, c).data)
      ensures IsUpdating(ClientOf(s, c)) ==>
        var r := ClientOf(s, c).record; EffectOf(s, ev) == Overwrite(r.index, r.data) || r.index !in s.entries
    {
      EndsWithEffect(s, ev, c);
    }
    if EffectOf(s, ev) == Nothing {
      QuietStep(s, ev);
    } else if ev.Delete? {
      DeleteStep(s, ev.index);
    } else {
      match ClientOf(s, ev.client) {
        case RegisterRead(data, i, rev) => RegisterCommit(s, ev.client, data, i, rev);
        case UpdateRead(r, rev) => UpdateCommit(s, ev.client, r, rev);
        case _ =>
      }
    }
  }

  // ----- Whole runs -----

  /** The atomic actions of a run, in order. */
  function Effects(evs: seq<Event>): seq<Action> {
    if evs == [] then []
    else Effects(evs[..|evs| - 1]) + [EffectOf(RunAll(Init, evs[..|evs| - 1]), evs[|evs| - 1])]
  }

  function ApplyAll(q: Queue, actions: seq<Action>): Queue {
    if actions == [] then q else Apply(ApplyAll(q, actions[..|actions| - 1]), actions[|actions| - 1])
  }

  /** Under any interleaving, the stored queue is what the same actions yield when each runs alone. */
  lemma {:induction false} RunsAreLinearizable(evs: seq<Event>)
    ensures Inv(RunAll(Init, evs))
    ensures Abstract(RunAll(Init, evs)) == ApplyAll(Queue(map[], 0), Effects(evs))
  {
    if evs == [] {
      assert Abstract(Init) == Queue(map[], 0);
    } else {
      var before := evs[..|evs| - 1];
      RunsAreLinearizable(before);
      StepRefines(RunAll(Init, before), evs[|evs| - 1]);
      var es := Effects(evs);
      assert es[..|es| - 1] == Effects(before);
    }
  }

  /** Registrations get the indices 0, 1, 2 and so on in the order of success, and stored indices stay below the write index. */
  lemma RegistrationsAreConsecutive(evs: seq<Event>)
    ensures var s := RunAll(Init, evs);
      && (forall k :: 0 <= k < |s.registered| ==> s.registered[k] == k)
      && (forall i :: i in s.entries ==> i < Next(s) && s.entries[i].value.index == i)
      && Next(s) == |s.registered|
  {
    RunsAreLinearizable(evs);
  }

  /** No step brings back a removed entry or replaces an entry by registering; new entries only take fresh indices. */
  lemma OnlyFreshIndicesAppear(evs: seq<Event>, ev: Event, i: nat)
    requires i !in RunAll(Init, evs).entries && i in Step(RunAll(Init, evs), ev).entries
    ensures i == Next(RunAll(Init, evs)) && i !in RunAll(Init, evs).registered
    ensures Step(RunAll(Init, evs), ev).registered == RunAll(Init, evs).registered + [i]
  {
    var s := RunAll(Init, evs);
    RunsAreLinearizable(evs);
    assert ev.Commit?;
    match ClientOf(s, ev.client) {
      case RegisterRead(data, k, rev) => RegisterCommit(s, ev.client, data, k, rev);
      case UpdateRead(r, rev) => UpdateCommit(s, ev.client, r, rev);
      case _ =>
    }
  }

  /** A client left alone for a read and a transaction gets its registration through. */
  lemma UndisturbedRegisters(s: State, c: nat, data: string)
    requires Inv(s) && ClientOf(s, c) == Registering(data)
    ensures var t := Step(Step(s, Get(c)), Commit(c));
      && ClientOf(t, c) == Resting && t.registered == s.registered + [Next(s)]
      && Abstract(t) == Apply(Abstract(s), Enqueue(data))
  {
    var s' := Step(s, Get(c));
    QuietStep(s, Get(c));
    assert ClientOk(s', s'.clients[c]);
    RegisterCommit(s', c, data, Next(s), WriteIndexRev(s));
  }

  /** And its update, unless the entry is gone. */
  lemma UndisturbedUpdates(s: State, c: nat, r: Record)
    requires Inv(s) && ClientOf(s, c) == Updating(r)
    ensures var t := Step(Step(s, Get(c)), Commit(c));
      ClientOf(t, c) == Resting && Abstract(t) == Apply(Abstract(s), Overwrite(r.index, r.data))
  {
    var s' := Step(s, Get(c));
    QuietStep(s, Get(c));
    if r.index in s.entries { UpdateCommit(s', c, r, EntryRev(s, r.index)); }
  }

  // ----- Calls run to their end -----

  /** A registration call retries with the same data until it has put it in the queue; nothing else ends it. */
  lemma RegistrationEnds(s: State, ev: Event, c: nat)
    requires Inv(s) && IsRegistering(ClientOf(s, c))
    ensures var t, data := Step(s, ev), ClientOf(s, c).data;
      || (IsRegistering(ClientOf(t, c)) && ClientOf(t, c).data == data)
      || (&& ClientOf(t, c) == Resting && ev == Commit(c)
          && Abstract(t) == Apply(Abstract(s), Enqueue(data)) && t.registered == s.registered + [Next(s)])
  {
    if ev == Commit(c) && ClientOf(s, c).RegisterRead? && WriteIndexRev(s) == ClientOf(s, c).rev {
      RegisterCommit(s, c, ClientOf(s, c).data, ClientOf(s, c).index, ClientOf(s, c).rev);
    }
  }

  /** An update call retries with the same record until it has replaced the entry, or has found it gone. */
  lemma UpdateEnds(s: State, ev: Event, c: nat)
    requires Inv(s) && IsUpdating(ClientOf(s, c))
    ensures var t, r := Step(s, ev), ClientOf(s, c).record;
      || (IsUpdating(ClientOf(t, c)) && ClientOf(t, c).record == r)
      || (&& ClientOf(t, c) == Resting && r.index in s.entries
          && Abstract(t) == Apply(Abstract(s), Overwrite(r.index, r.data)) && t.entries[r.index].value == r)
      || (ClientOf(t, c) == Resting && r.index !in s.entries && t.entries == s.entries)
  {
    if ev == Commit(c) && ClientOf(s, c).UpdateRead? && EntryRev(s, ClientOf(s, c).record.index) == ClientOf(s, c).rev {
      UpdateCommit(s, c, ClientOf(s, c).record, ClientOf(s, c).rev);
    }
  }

  /** The step ends somebody's registration. */
  ghost predicate EndsRegistration(s: State, ev: Event) {
    exists c :: IsRegistering(ClientOf(s, c)) && ClientOf(Step(s, ev), c).Resting?
  }

  predicate BeginsRegistration(s: State, ev: Event) {
    ev.StartRegister? && ClientOf(s, ev.client).Resting?
  }

  ghost function Ended(evs: seq<Event>): nat {
    if evs == [] then 0
    else
      var n := |evs| - 1;
      Ended(evs[..n]) + (if EndsRegistration(RunAll(Init, evs[..n]), evs[n]) then 1 else 0)
  }

  ghost function Begun(evs: seq<Event>): nat {
    if evs == [] then 0
    else
      var n := |evs| - 1;
      Begun(evs[..n]) + (if BeginsRegistration(RunAll(Init, evs[..n]), evs[n]) then 1 else 0)
  }

  /** The clients in the middle of a registration. */
  function Waiting(s: State): set<nat> {
    set c | c in s.clients && IsRegistering(s.clients[c])
  }

  lemma RegisteredByEnding(s: State, ev: Event)
    requires Inv(s)
    ensures |Step(s, ev).registered| == |s.registered| + (if EndsRegistration(s, ev) then 1 else 0)
  {
    if Step(s, ev).registered != s.registered {
      assert IsRegistering(ClientOf(s, ev.client)) && ClientOf(Step(s, ev), ev.client).Resting?;
    }
    if EndsRegistration(s, ev) {
      var c :| IsRegistering(ClientOf(s, c)) && ClientOf(Step(s, ev), c).Resting?;
      RegistrationEnds(s, ev, c);
    }
  }

  lemma OneClientMoves(s: State, ev: Event, d: nat)
    requires ev.Delete? || d != ev.client
    ensures ClientOf(Step(s, ev), d) == ClientOf(s, d)
  {
  }

  lemma ChangedAtOne(a: set<nat>, b: set<nat>, c: nat)
    requires forall d :: d != c ==> (d in a <==> d in b)
    ensures |b| == |a| + (if c in b then 1 else 0) - (if c in a then 1 else 0)
  {
    assert a - {c} == b - {c};
    assert c in a ==> a == (a - {c}) + {c};
    assert c in b ==> b == (b - {c}) + {c};
    assert c !in a ==> a == a - {c};
    assert c !in b ==> b == b - {c};
  }

  lemma WaitingMember(s: State, c: nat)
    ensures c in Waiting(s) <==> IsRegistering(ClientOf(s, c))
  {
  }

  lemma OnlyOneWaits(s: State, ev: Event, c: nat)
    requires ev.Delete? || c == ev.client
    ensures forall d :: d != c ==> (d in Waiting(s) <==> d in Waiting(Step(s, ev)))
  {
    forall d | d != c ensures d in Waiting(s) <==> d in Waiting(Step(s, ev)) {
      OneClientMoves(s, ev, d);
      WaitingMember(s, d);
      WaitingMember(Step(s, ev), d);
    }
  }

  lemma BeginOrEnd(s: State, ev: Event, c: nat)
    requires Inv(s) && (ev.Delete? || c == ev.client)
    ensures !IsRegistering(ClientOf(s, c)) && IsRegistering(ClientOf(Step(s, ev), c)) <==> BeginsRegistration(s, ev)
    ensures IsRegistering(ClientOf(s, c)) && !IsRegistering(ClientOf(Step(s, ev), c)) <==> EndsRegistration(s, ev)
  {
    if IsRegistering(ClientOf(s, c)) { RegistrationEnds(s, ev, c); }
    if EndsRegistration(s, ev) {
      var d :| IsRegistering(ClientOf(s, d)) && ClientOf(Step(s, ev), d).Resting?;
      RegistrationEnds(s, ev, d);
    }
  }

  lemma WaitingByOne(s: State, ev: Event)
    requires Inv(s)
    ensures |Waiting(Step(s, ev))| == |Waiting(s)| + (if BeginsRegistration(s, ev) then 1 else 0)
                                      - (if EndsRegistration(s, ev) then 1 else 0)
  {
    var c := if ev.Delete? then 0 else ev.client;
    OnlyOneWaits(s, ev, c);
    ChangedAtOne(Waiting(s), Waiting(Step(s, ev)), c);
    WaitingMember(s, c);
    WaitingMember(Step(s, ev), c);
    BeginOrEnd(s, ev, c);
  }

  /** No registration is lost or counted twice: every call begun has ended with its entry registered, or still goes on. */
  lemma {:induction false} RegistrationsAreConserved(evs: seq<Event>)
    ensures var s := RunAll(Init, evs);
      |s.registered| == Ended(evs) && Begun(evs) == |s.registered| + |Waiting(s)|
  {
    if evs == [] {
      assert Waiting(Init) == {};
    } else {
      var n := |evs| - 1;
      RegistrationsAreConserved(evs[..n]);
      RunsAreLinearizable(evs[..n]);
      RegisteredByEnding(RunAll(Init, evs[..n]), evs[n]);
      WaitingByOne(RunAll(Init, evs[..n]), evs[n]);
    }
  }
}
