/** The DLQ replay (go-ingestion/internal/dlq/commands.go): any number of replayers, each a loop over a listing
    taken earlier, stopping anywhere. Guard keys do not expire here. */
module DlqReplay {
  import opened Decimal
  import opened QueueTypes
  import opened MessageCodec
  import opened Sequences

  /** Guard keys are scoped by the stream replayed to. */
  datatype Kind = Fetch | Parse

  datatype Key = Key(kind: Kind, id: nat)

  datatype Guard = Guard(kind: Kind, matchId: string)

  datatype Copy<P> = Copy(kind: Kind, fields: Fields<P>)

  predicate Readable<P>(fields: Fields<P>) {
    PayloadField in fields && fields[PayloadField].Raw?
  }

  /** extractMatchID, with the payload's JSON left to a parameter. */
  function MatchOf<P>(matchId: P -> string, fields: Fields<P>): string {
    if Readable(fields) then matchId(fields[PayloadField].payload) else ""
  }

  /** XREVRANGE: the newest entries of the kind, at most n. */
  function Newest(keys: set<Key>, kind: Kind, hi: nat, n: nat): (ids: seq<nat>)
    ensures forall i :: 0 <= i < |ids| ==> Key(kind, ids[i]) in keys && 0 < ids[i] <= hi
    ensures forall i, j :: 0 <= i < j < |ids| ==> ids[j] < ids[i]
  {
    if hi == 0 || n == 0 then []
    else if Key(kind, hi) in keys then [hi] + Newest(keys, kind, hi - 1, n - 1)
    else Newest(keys, kind, hi - 1, n)
  }

  ghost function KeysOf(keys: set<Key>, kind: Kind, hi: nat): set<nat> {
    set k | k in keys && k.kind == kind && 0 < k.id <= hi :: k.id
  }

  /** As many are listed as there are, or n if there are more. */
  lemma {:induction false} NewestCount(keys: set<Key>, kind: Kind, hi: nat, n: nat)
    ensures |Newest(keys, kind, hi, n)| == if |KeysOf(keys, kind, hi)| < n then |KeysOf(keys, kind, hi)| else n
  {
    if hi == 0 {
      assert KeysOf(keys, kind, hi) == {};
    } else if n > 0 {
      KeysNext(keys, kind, hi);
      NewestCount(keys, kind, hi - 1, if Key(kind, hi) in keys then n - 1 else n);
    }
  }

  /** What is not listed is older than all that is, and there is such only if n are listed. */
  lemma {:induction false} NewestExactly(keys: set<Key>, kind: Kind, hi: nat, n: nat, id: nat)
    requires Key(kind, id) in keys && 0 < id <= hi && id !in Newest(keys, kind, hi, n)
    ensures |Newest(keys, kind, hi, n)| == n && forall x :: x in Newest(keys, kind, hi, n) ==> id < x
  {
    if n > 0 {
      if Key(kind, hi) in keys {
        var rest := Newest(keys, kind, hi - 1, n - 1);
        assert Newest(keys, kind, hi, n) == [hi] + rest && id !in rest && ([hi] + rest)[0] == hi;
        NewestExactly(keys, kind, hi - 1, n - 1, id);
      } else {
        NewestExactly(keys, kind, hi - 1, n, id);
      }
    }
  }

  /** With a limit that covers them all are listed. */
  lemma NewestAll(keys: set<Key>, kind: Kind, hi: nat, n: nat)
    requires |KeysOf(keys, kind, hi)| <= n
    ensures forall id :: id in KeysOf(keys, kind, hi) ==> id in Newest(keys, kind, hi, n)
  {
    var ids := Newest(keys, kind, hi, n);
    NewestCount(keys, kind, hi, n);
    forall i | 0 <= i < |ids|
      ensures ids[i] in KeysOf(keys, kind, hi)
    {
      assert Key(kind, ids[i]) in keys;
    }
    DistinctCovers(ids, KeysOf(keys, kind, hi));
  }

  lemma KeysNext(keys: set<Key>, kind: Kind, hi: nat)
    requires hi > 0
    ensures KeysOf(keys, kind, hi) == KeysOf(keys, kind, hi - 1) + if Key(kind, hi) in keys then {hi} else {}
    ensures hi !in KeysOf(keys, kind, hi - 1)
  {
    var all := KeysOf(keys, kind, hi);
    forall id | id in all
      ensures id in KeysOf(keys, kind, hi - 1) + if Key(kind, hi) in keys then {hi} else {}
    {
      assert Key(kind, id) in keys;
    }
    forall id | id in KeysOf(keys, kind, hi - 1) + if Key(kind, hi) in keys then {hi} else {}
      ensures id in all
    {
      assert Key(kind, id) in keys;
    }
  }

  lemma NewestOne(keys: set<Key>, kind: Kind, hi: nat)
    requires hi > 0 && Key(kind, hi) in keys
    ensures Newest(keys, kind, hi, 1) == [hi]
  {
    assert Newest(keys, kind, hi, 1) == [hi] + Newest(keys, kind, hi - 1, 0);
  }

  // ----- The protocol -----

  datatype Listed<P> = Listed(id: nat, fields: Fields<P>)

  /** Where a replayer is: before an entry, past its guard, or about to take the guard back. */
  datatype Replayer<P> =
    | Looping(kind: Kind, todo: seq<Listed<P>>)
    | Copying(kind: Kind, entry: Listed<P>, todo: seq<Listed<P>>)
    | Undoing(kind: Kind, entry: Listed<P>, todo: seq<Listed<P>>, copied: bool) // copied: the script had run

  datatype World<P> = World(
    dlq: map<Key, Fields<P>>, lastId: nat,
    guards: set<Guard>,
    copies: seq<Copy<P>>,            // what was appended to the target streams
    replayers: map<nat, Replayer<P>>)

  /** The answer to SETNX; an error may come with or without the effect. */
  datatype Reply = Added | Present | ErrorOnly | ErrorAfterEffect

  /** The script's outcome; LostReply is an error reported although the script ran. */
  datatype Ran = Done | Failed | LostReply

  datatype Event<P> =
    | Arrive(kind: Kind, fields: Fields<P>)
    | Start(who: nat, kind: Kind, limit: nat)
    | TakeGuard(who: nat, reply: Reply)
    | NoGuard(who: nat)
    | Script(who: nat, ran: Ran)
    | Undo(who: nat, done: bool)
    | Stop(who: nat)

  ghost function GuardOf<P>(matchId: P -> string, kind: Kind, fields: Fields<P>): Guard {
    Guard(kind, MatchOf(matchId, fields))
  }

  ghost predicate Enabled<P>(matchId: P -> string, w: World<P>, e: Event<P>) {
    match e
    case Arrive(_, _) => true
    case Start(who, _, _) => who !in w.replayers
    case TakeGuard(who, reply) =>
      && who in w.replayers && w.replayers[who].Looping? && w.replayers[who].todo != []
      && var g := GuardOf(matchId, w.replayers[who].kind, w.replayers[who].todo[0].fields);
         g.matchId != "" && (reply == Added || reply == ErrorAfterEffect ==> g !in w.guards)
           && (reply == Present ==> g in w.guards)
    case NoGuard(who) =>
      && who in w.replayers && w.replayers[who].Looping? && w.replayers[who].todo != []
      && MatchOf(matchId, w.replayers[who].todo[0].fields) == ""
    // A message without a payload has no argument to send.
    case Script(who, ran) =>
      who in w.replayers && w.replayers[who].Copying? && (ran != Failed ==> Readable(w.replayers[who].entry.fields))
    case Undo(who, _) => who in w.replayers && w.replayers[who].Undoing?
    case Stop(who) => who in w.replayers
  }

  /** XADD to the target and XDEL from the DLQ, as one. */
  ghost function Copied<P>(w: World<P>, kind: Kind, entry: Listed<P>): World<P>
    requires Readable(entry.fields)
  {
    w.(copies := w.copies + [Copy(kind, Replayed(entry.fields))], dlq := w.dlq - {Key(kind, entry.id)})
  }

  ghost function Listing<P>(dlq: map<Key, Fields<P>>, lastId: nat, kind: Kind, limit: nat): (todo: seq<Listed<P>>) {
    var ids := Newest(dlq.Keys, kind, lastId, limit);
    seq(|ids|, i requires 0 <= i < |ids| => Listed(ids[i], dlq[Key(kind, ids[i])]))
  }

  ghost function After<P>(matchId: P -> string, w: World<P>, e: Event<P>): World<P>
    requires Enabled(matchId, w, e)
  {
    match e
    case Arrive(kind, fields) => w.(dlq := w.dlq[Key(kind, w.lastId + 1) := fields], lastId := w.lastId + 1)
    case Start(who, kind, limit) =>
      w.(replayers := w.replayers[who := Looping(kind, Listing(w.dlq, w.lastId, kind, limit))])
    case TakeGuard(who, reply) =>
      var r := w.replayers[who];
      var g := GuardOf(matchId, r.kind, r.todo[0].fields);
      w.(guards := if reply == Added || reply == ErrorAfterEffect then w.guards + {g} else w.guards,
         replayers := w.replayers[who := if reply == Added then Copying(r.kind, r.todo[0], r.todo[1..])
                                         else Looping(r.kind, r.todo[1..])])
    case NoGuard(who) =>
      var r := w.replayers[who];
      w.(replayers := w.replayers[who := Copying(r.kind, r.todo[0], r.todo[1..])])
    case Script(who, ran) =>
      var r := w.replayers[who];
      var next := if ran != Done && MatchOf(matchId, r.entry.fields) != ""
                  then Undoing(r.kind, r.entry, r.todo, ran == LostReply)
                  else Looping(r.kind, r.todo);
      (if ran == Failed then w else Copied(w, r.kind, r.entry)).(replayers := w.replayers[who := next])
    case Undo(who, done) =>
      var r := w.replayers[who];
      w.(guards := if done then w.guards - {GuardOf(matchId, r.kind, r.entry.fields)} else w.guards,
         replayers := w.replayers[who := Looping(r.kind, r.todo)])
    case Stop(who) => w.(replayers := w.replayers - {who})
  }

  ghost function RunFrom<P>(matchId: P -> string, w: World<P>, es: seq<Event<P>>): Option<World<P>> {
    if es == [] then Some(w)
    else
      match RunFrom(matchId, w, es[..|es| - 1])
      case None => None
      case Some(v) => if Enabled(matchId, v, es[|es| - 1]) then Some(After(matchId, v, es[|es| - 1])) else None
  }

  ghost function Fresh<P>(): World<P> {
    World(map[], 0, {}, [], map[])
  }

  ghost function Run<P>(matchId: P -> string, es: seq<Event<P>>): Option<World<P>> {
    RunFrom(matchId, Fresh(), es)
  }

  // ----- At most one copy per match -----

  /** A lost reply alone does no harm; taking back the guard of a message that was copied does. */
  ghost predicate Honest<P>(w: World<P>, e: Event<P>) {
    e.Undo? && e.done && e.who in w.replayers && w.replayers[e.who].Undoing? ==> !w.replayers[e.who].copied
  }

  ghost predicate HonestFrom<P>(matchId: P -> string, w: World<P>, es: seq<Event<P>>) {
    es == []
    || (HonestFrom(matchId, w, es[..|es| - 1])
        && (RunFrom(matchId, w, es[..|es| - 1]).Some? ==>
              Honest(RunFrom(matchId, w, es[..|es| - 1]).value, es[|es| - 1])))
  }

  ghost predicate AllHonest<P>(matchId: P -> string, es: seq<Event<P>>) {
    HonestFrom(matchId, Fresh(), es)
  }

  ghost function CopyGuard<P>(matchId: P -> string, c: Copy<P>): Guard {
    GuardOf(matchId, c.kind, c.fields)
  }

  /** The guard a replayer is past and has not used yet; an entry without a match ID has none. */
  ghost function Owned<P>(matchId: P -> string, r: Replayer<P>): Option<Guard> {
    if r.Looping? || (r.Undoing? && r.copied) || MatchOf(matchId, r.entry.fields) == "" then None
    else Some(GuardOf(matchId, r.kind, r.entry.fields))
  }

  ghost predicate CopiesGuarded<P>(matchId: P -> string, copies: seq<Copy<P>>, guards: set<Guard>) {
    forall i :: 0 <= i < |copies| && CopyGuard(matchId, copies[i]).matchId != "" ==>
      CopyGuard(matchId, copies[i]) in guards
  }

  ghost predicate NotCopied<P>(matchId: P -> string, copies: seq<Copy<P>>, g: Guard) {
    forall i :: 0 <= i < |copies| ==> CopyGuard(matchId, copies[i]) != g
  }

  /** The guards replayers are past are set, no two replayers are past the same one, and it has no copy yet. */
  ghost predicate OwnersFit<P>(matchId: P -> string, w: World<P>) {
    && (forall t :: t in w.replayers && Owned(matchId, w.replayers[t]).Some? ==>
          Owned(matchId, w.replayers[t]).value in w.guards
            && NotCopied(matchId, w.copies, Owned(matchId, w.replayers[t]).value))
    && (forall t, u :: t in w.replayers && u in w.replayers && t != u && Owned(matchId, w.replayers[t]).Some? ==>
          Owned(matchId, w.replayers[t]) != Owned(matchId, w.replayers[u]))
  }

  ghost predicate OneCopyEach<P>(matchId: P -> string, copies: seq<Copy<P>>) {
    forall i, j :: 0 <= i < j < |copies| && CopyGuard(matchId, copies[i]).matchId != ""
      ==> CopyGuard(matchId, copies[i]) != CopyGuard(matchId, copies[j])
  }

  ghost predicate Guarded<P>(matchId: P -> string, w: World<P>) {
    CopiesGuarded(matchId, w.copies, w.guards) && OwnersFit(matchId, w) && OneCopyEach(matchId, w.copies)
  }

  lemma ReplayedReadable<P>(fields: Fields<P>)
    requires Readable(fields)
    ensures Readable(Replayed(fields)) && Replayed(fields)[PayloadField] == fields[PayloadField]
  {
  }

  lemma ReplayedMatch<P>(matchId: P -> string, kind: Kind, fields: Fields<P>)
    requires Readable(fields)
    ensures GuardOf(matchId, kind, Replayed(fields)) == GuardOf(matchId, kind, fields)
  {
    ReplayedReadable(fields);
  }

  /** A replayer moves on without changing guards or copies, and owns at most what it owned. */
  lemma MoveKeeps<P>(matchId: P -> string, w: World<P>, who: nat, r: Replayer<P>)
    requires Guarded(matchId, w)
    requires Owned(matchId, r).None? || (who in w.replayers && Owned(matchId, r) == Owned(matchId, w.replayers[who]))
    ensures Guarded(matchId, w.(replayers := w.replayers[who := r]))
  {
  }

  lemma TakeKeeps<P>(matchId: P -> string, w: World<P>, who: nat, r: Replayer<P>, g: Guard)
    requires Guarded(matchId, w) && g !in w.guards && g.matchId != ""
    requires Owned(matchId, r).None? || Owned(matchId, r) == Some(g)
    ensures Guarded(matchId, w.(guards := w.guards + {g}, replayers := w.replayers[who := r]))
  {
    forall i | 0 <= i < |w.copies|
      ensures CopyGuard(matchId, w.copies[i]) != g
    {
    }
  }

  lemma CopyKeeps<P>(matchId: P -> string, w: World<P>, who: nat, r: Replayer<P>, c: Copy<P>)
    requires Guarded(matchId, w) && who in w.replayers && Owned(matchId, r).None?
    requires CopyGuard(matchId, c).matchId != "" ==> Owned(matchId, w.replayers[who]) == Some(CopyGuard(matchId, c))
    ensures Guarded(matchId, w.(copies := w.copies + [c], replayers := w.replayers[who := r]))
  {
  }

  lemma UndoKeeps<P>(matchId: P -> string, w: World<P>, who: nat, r: Replayer<P>, g: Guard)
    requires Guarded(matchId, w) && who in w.replayers && Owned(matchId, r).None?
    requires Owned(matchId, w.replayers[who]) == Some(g)
    ensures Guarded(matchId, w.(guards := w.guards - {g}, replayers := w.replayers[who := r]))
  {
  }

  ghost predicate IsCopied<P>(matchId: P -> string, copies: seq<Copy<P>>, g: Guard) {
    exists i :: 0 <= i < |copies| && CopyGuard(matchId, copies[i]) == g
  }

  /** What is undone was guarded, and copied if it is marked so. */
  ghost predicate UndoFits<P>(matchId: P -> string, w: World<P>) {
    forall t :: t in w.replayers && w.replayers[t].Undoing? ==>
      var r := w.replayers[t];
      && MatchOf(matchId, r.entry.fields) != ""
      && (r.copied ==>
            Readable(r.entry.fields) && IsCopied(matchId, w.copies, GuardOf(matchId, r.kind, r.entry.fields)))
  }

  lemma UndoStays<P>(matchId: P -> string, w: World<P>, v: World<P>)
    requires UndoFits(matchId, w) && |w.copies| <= |v.copies| && w.copies == v.copies[..|w.copies|]
    requires forall t :: t in v.replayers && v.replayers[t].Undoing? ==>
        t in w.replayers && v.replayers[t] == w.replayers[t]
    ensures UndoFits(matchId, v)
  {
    forall g | IsCopied(matchId, w.copies, g)
      ensures IsCopied(matchId, v.copies, g)
    {
      var i :| 0 <= i < |w.copies| && CopyGuard(matchId, w.copies[i]) == g;
      assert v.copies[i] == w.copies[i];
    }
  }

  lemma ScriptKeepsUndo<P>(matchId: P -> string, w: World<P>, who: nat, ran: Ran)
    requires UndoFits(matchId, w) && Enabled(matchId, w, Script(who, ran))
    ensures UndoFits(matchId, After(matchId, w, Script(who, ran)))
  {
    hide Replayed, MatchOf;
    var v := After(matchId, w, Script(who, ran));
    UndoStays(matchId, w, v.(replayers := w.replayers - {who}));
    if ran == LostReply {
      var r := w.replayers[who];
      ReplayedMatch(matchId, r.kind, r.entry.fields);
      assert CopyGuard(matchId, v.copies[|w.copies|]) == GuardOf(matchId, r.kind, r.entry.fields);
    }
  }

  lemma StepKeepsGuarded<P>(matchId: P -> string, w: World<P>, e: Event<P>)
    requires Guarded(matchId, w) && UndoFits(matchId, w) && Enabled(matchId, w, e)
    requires Honest(w, e)
    ensures Guarded(matchId, After(matchId, w, e)) && UndoFits(matchId, After(matchId, w, e))
  {
    hide Replayed;
    var v := After(matchId, w, e);
    match e
    case Arrive(_, _) =>
    case Start(who, _, _) => MoveKeeps(matchId, w, who, v.replayers[who]);
    case TakeGuard(who, reply) =>
      if reply == Added || reply == ErrorAfterEffect {
        TakeKeeps(matchId, w, who, v.replayers[who],
          GuardOf(matchId, w.replayers[who].kind, w.replayers[who].todo[0].fields));
      } else {
        MoveKeeps(matchId, w, who, v.replayers[who]);
      }
    case NoGuard(who) => MoveKeeps(matchId, w, who, v.replayers[who]);
    case Script(who, ran) =>
      ScriptKeepsUndo(matchId, w, who, ran);
      if ran != Failed {
        var r := w.replayers[who];
        ReplayedMatch(matchId, r.kind, r.entry.fields);
        CopyKeeps(matchId, w, who, v.replayers[who], Copy(r.kind, Replayed(r.entry.fields)));
      } else {
        MoveKeeps(matchId, w, who, v.replayers[who]);
      }
    case Undo(who, done) =>
      if done {
        UndoKeeps(matchId, w, who, v.replayers[who],
          GuardOf(matchId, w.replayers[who].kind, w.replayers[who].entry.fields));
      } else {
        MoveKeeps(matchId, w, who, v.replayers[who]);
      }
    case Stop(who) =>
  }

  lemma {:induction false} RunGuarded<P>(matchId: P -> string, w: World<P>, es: seq<Event<P>>)
    requires Guarded(matchId, w) && UndoFits(matchId, w)
    requires RunFrom(matchId, w, es).Some? && HonestFrom(matchId, w, es)
    ensures Guarded(matchId, RunFrom(matchId, w, es).value) && UndoFits(matchId, RunFrom(matchId, w, es).value)
  {
    if es != [] {
      RunGuarded(matchId, w, es[..|es| - 1]);
      StepKeepsGuarded(matchId, RunFrom(matchId, w, es[..|es| - 1]).value, es[|es| - 1]);
    }
  }

  /** However many replayers run, stop or start over, and whichever replies are lost, a target stream gets at most
      one copy per match ID, unless the guard of a copied message is taken back. */
  lemma OneCopyPerMatch<P>(matchId: P -> string, es: seq<Event<P>>, i: nat, j: nat)
    requires Run(matchId, es).Some? && AllHonest(matchId, es)
    requires i < j < |Run(matchId, es).value.copies|
    ensures var a, b := Run(matchId, es).value.copies[i], Run(matchId, es).value.copies[j];
            a.kind == b.kind && MatchOf(matchId, a.fields) == MatchOf(matchId, b.fields) ==>
              MatchOf(matchId, a.fields) == ""
  {
    RunGuarded(matchId, Fresh(), es);
  }

  // ----- Nothing leaves the DLQ but as a copy -----

  /** IDs are not used twice, so what a replayer has listed is what is stored, if anything still is. */
  ghost predicate ListedFits<P>(w: World<P>, kind: Kind, entry: Listed<P>) {
    entry.id <= w.lastId && (Key(kind, entry.id) in w.dlq ==> w.dlq[Key(kind, entry.id)] == entry.fields)
  }

  ghost predicate ReplayerFits<P>(w: World<P>, r: Replayer<P>) {
    && (forall i :: 0 <= i < |r.todo| ==> ListedFits(w, r.kind, r.todo[i]))
    && (!r.Looping? ==> ListedFits(w, r.kind, r.entry))
  }

  ghost predicate ListingsFit<P>(w: World<P>) {
    && (forall k :: k in w.dlq ==> k.id <= w.lastId)
    && (forall t :: t in w.replayers ==> ReplayerFits(w, w.replayers[t]))
  }

  lemma StepKeepsListings<P>(matchId: P -> string, w: World<P>, e: Event<P>)
    requires ListingsFit(w) && Enabled(matchId, w, e)
    ensures ListingsFit(After(matchId, w, e))
  {
    hide Replayed, MatchOf;
    var v := After(matchId, w, e);
    forall t | t in v.replayers
      ensures ReplayerFits(v, v.replayers[t])
    {
      if t in w.replayers {
        assert ReplayerFits(w, w.replayers[t]);
      }
    }
  }

  lemma {:induction false} RunListings<P>(matchId: P -> string, es: seq<Event<P>>)
    requires Run(matchId, es).Some?
    ensures ListingsFit(Run(matchId, es).value)
  {
    if es != [] {
      RunListings(matchId, es[..|es| - 1]);
      StepKeepsListings(matchId, Run(matchId, es[..|es| - 1]).value, es[|es| - 1]);
    }
  }

  /** An entry that leaves the DLQ does so in the very step that appends its payload, with retry count 0, to
      the stream it belongs to. Lost replies do not matter here. */
  lemma LeavesOnlyAsCopy<P>(matchId: P -> string, es: seq<Event<P>>, e: Event<P>, k: Key, id: nat)
    requires Run(matchId, es).Some? && Enabled(matchId, Run(matchId, es).value, e)
    requires k in Run(matchId, es).value.dlq && k !in After(matchId, Run(matchId, es).value, e).dlq
    ensures var w := Run(matchId, es).value;
            && Readable(w.dlq[k])
            && After(matchId, w, e).copies == w.copies + [Copy(k.kind, Replayed(w.dlq[k]))]
            && Decode(id, Replayed(w.dlq[k])) ==
                 Ok(Task(id, w.dlq[k][PayloadField].payload, TraceContext(HeadersOf(w.dlq[k])), 0))
  {
    hide Encoded, HeadersOf, TraceContext;
    RunListings(matchId, es);
    var w := Run(matchId, es).value;
    var entry := w.replayers[e.who].entry;
    assert ReplayerFits(w, w.replayers[e.who]) && ListedFits(w, w.replayers[e.who].kind, entry);
    assert k == Key(w.replayers[e.who].kind, entry.id);
    ReplayRoundTrip(id, w.dlq[k]);
  }

  /** It leaves exactly when a replayer that has listed it sends the script and the script runs. */
  lemma LeavesExactly<P>(matchId: P -> string, es: seq<Event<P>>, e: Event<P>, k: Key)
    requires Run(matchId, es).Some? && Enabled(matchId, Run(matchId, es).value, e) && k in Run(matchId, es).value.dlq
    ensures var w := Run(matchId, es).value;
            k !in After(matchId, w, e).dlq <==>
              e.Script? && e.ran != Failed
              && k == Key(w.replayers[e.who].kind, w.replayers[e.who].entry.id)
  {
    hide Replayed, MatchOf;
  }

  // ----- Where the guard does not help -----

  lemma Nothing<P>(matchId: P -> string, w: World<P>)
    ensures RunFrom(matchId, w, []) == Some(w) && HonestFrom(matchId, w, [])
  {
  }

  lemma Then<P>(matchId: P -> string, start: World<P>, es: seq<Event<P>>, w: World<P>, e: Event<P>)
    requires RunFrom(matchId, start, es) == Some(w) && Enabled(matchId, w, e)
    ensures RunFrom(matchId, start, es + [e]) == Some(After(matchId, w, e))
    ensures HonestFrom(matchId, start, es) && Honest(w, e) ==> HonestFrom(matchId, start, es + [e])
  {
    assert (es + [e])[..|es|] == es;
  }

  /** A run and what follows it. */
  lemma {:induction false} RunJoins<P>(matchId: P -> string, w: World<P>, es: seq<Event<P>>, v: World<P>,
      more: seq<Event<P>>)
    requires RunFrom(matchId, w, es) == Some(v)
    ensures RunFrom(matchId, w, es + more) == RunFrom(matchId, v, more)
    ensures HonestFrom(matchId, w, es) && HonestFrom(matchId, v, more) ==> HonestFrom(matchId, w, es + more)
  {
    if more == [] {
      assert es + more == es;
    } else {
      RunJoins(matchId, w, es, v, more[..|more| - 1]);
      assert (es + more)[..|es + more| - 1] == es + more[..|more| - 1];
    }
  }

  ghost predicate BothListed<P>(w: World<P>, kind: Kind, fields: Fields<P>) {
    && w.guards == {} && w.copies == []
    && (forall t :: t in [1, 2] ==> t in w.replayers && w.replayers[t] == Looping(kind, [Listed(1, fields)]))
  }

  /** Two replayers list the one entry of a DLQ. */
  lemma TwoListings<P>(matchId: P -> string, kind: Kind, fields: Fields<P>) returns (es: seq<Event<P>>, w: World<P>)
    ensures Run(matchId, es) == Some(w) && AllHonest(matchId, es) && BothListed(w, kind, fields)
  {
    hide Newest, RunFrom, HonestFrom, MatchOf, Replayed;
    Nothing(matchId, Fresh());
    Then(matchId, Fresh(), [], Fresh(), Arrive(kind, fields));
    es, w := [] + [Arrive(kind, fields)], After(matchId, Fresh(), Arrive(kind, fields));
    assert Listing(w.dlq, w.lastId, kind, 1) == [Listed(1, fields)] by {
      NewestOne(w.dlq.Keys, kind, 1);
    }
    Then(matchId, Fresh(), es, w, Start(1, kind, 1));
    es, w := es + [Start(1, kind, 1)], After(matchId, w, Start(1, kind, 1));
    Then(matchId, Fresh(), es, w, Start(2, kind, 1));
    es, w := es + [Start(2, kind, 1)], After(matchId, w, Start(2, kind, 1));
  }

  ghost predicate CopiedTwice<P>(w: World<P>, kind: Kind, fields: Fields<P>) {
    Readable(fields) && w.copies == [Copy(kind, Replayed(fields)), Copy(kind, Replayed(fields))]
  }

  /** A message without a match ID is not guarded: two replayers that list it at the same time both copy it. */
  lemma UnguardedCopiedTwice<P>(matchId: P -> string, kind: Kind, fields: Fields<P>) returns (es: seq<Event<P>>)
    requires Readable(fields) && MatchOf(matchId, fields) == ""
    ensures Run(matchId, es).Some? && AllHonest(matchId, es) && CopiedTwice(Run(matchId, es).value, kind, fields)
  {
    hide Replayed;
    var w;
    es, w := TwoListings(matchId, kind, fields);
    for t := 1 to 3
      invariant Run(matchId, es) == Some(w) && AllHonest(matchId, es)
      invariant forall u :: t <= u < 3 ==> u in w.replayers && w.replayers[u] == Looping(kind, [Listed(1, fields)])
      invariant w.copies == if t == 1 then [] else if t == 2 then [Copy(kind, Replayed(fields))]
                            else [Copy(kind, Replayed(fields)), Copy(kind, Replayed(fields))]
    {
      Then(matchId, Fresh(), es, w, NoGuard(t));
      es, w := es + [NoGuard(t)], After(matchId, w, NoGuard(t));
      Then(matchId, Fresh(), es, w, Script(t, Done));
      es, w := es + [Script(t, Done)], After(matchId, w, Script(t, Done));
    }
  }

  /** Nothing that can still happen, short of taking back the guard of another copied message, makes a second copy. */
  ghost predicate StaysSingle<P(!new)>(matchId: P -> string, w: World<P>) {
    forall more :: RunFrom(matchId, w, more).Some? && HonestFrom(matchId, w, more) ==>
      OneCopyEach(matchId, RunFrom(matchId, w, more).value.copies)
  }

  lemma SomeoneElse<P>(replayers: map<nat, Replayer<P>>) returns (t: nat)
    ensures t !in replayers
  {
    var ts := replayers.Keys;
    t := 0;
    while ts != {}
      invariant forall u :: u in replayers && u !in ts ==> u < t
    {
      var u :| u in ts;
      ts := ts - {u};
      t := if u < t then t else u + 1;
    }
  }

  /** A message arrives, and a new replayer lists it and takes its guard, which is free. */
  lemma Taken<P>(matchId: P -> string, w: World<P>, kind: Kind, fields: Fields<P>)
      returns (t: nat, es: seq<Event<P>>, v: World<P>)
    requires GuardOf(matchId, kind, fields).matchId != "" && GuardOf(matchId, kind, fields) !in w.guards
    ensures RunFrom(matchId, w, es) == Some(v) && HonestFrom(matchId, w, es)
    ensures v.copies == w.copies
    ensures t in v.replayers && v.replayers[t] == Copying(kind, Listed(w.lastId + 1, fields), [])
  {
    hide Newest, RunFrom, HonestFrom;
    Nothing(matchId, w);
    t := SomeoneElse(w.replayers);
    Then(matchId, w, [], w, Arrive(kind, fields));
    es, v := [] + [Arrive(kind, fields)], After(matchId, w, Arrive(kind, fields));
    assert Listing(v.dlq, v.lastId, kind, 1) == [Listed(w.lastId + 1, fields)] by {
      NewestOne(v.dlq.Keys, kind, v.lastId);
    }
    Then(matchId, w, es, v, Start(t, kind, 1));
    es, v := es + [Start(t, kind, 1)], After(matchId, v, Start(t, kind, 1));
    Then(matchId, w, es, v, TakeGuard(t, Added));
    es, v := es + [TakeGuard(t, Added)], After(matchId, v, TakeGuard(t, Added));
  }

  lemma CopiedAgain<P>(matchId: P -> string, w: World<P>, kind: Kind, fields: Fields<P>) returns (es: seq<Event<P>>)
    requires GuardOf(matchId, kind, fields).matchId != "" && GuardOf(matchId, kind, fields) !in w.guards
    requires Readable(fields)
    ensures RunFrom(matchId, w, es).Some? && HonestFrom(matchId, w, es)
    ensures RunFrom(matchId, w, es).value.copies == w.copies + [Copy(kind, Replayed(fields))]
  {
    hide Replayed, MatchOf;
    var t, v;
    t, es, v := Taken(matchId, w, kind, fields);
    Then(matchId, w, es, v, Script(t, Done));
    es := es + [Script(t, Done)];
  }

  /** From every state reached without it, a step leaves no way to a second copy exactly if it does not take back
      the guard of a copied message. */
  lemma SingleExactly<P(!new)>(matchId: P -> string, es: seq<Event<P>>, e: Event<P>)
    requires Run(matchId, es).Some? && AllHonest(matchId, es) && Enabled(matchId, Run(matchId, es).value, e)
    ensures StaysSingle(matchId, After(matchId, Run(matchId, es).value, e)) <==> Honest(Run(matchId, es).value, e)
  {
    hide Replayed, MatchOf, RunFrom, HonestFrom, CopyGuard;
    var w := Run(matchId, es).value;
    var v := After(matchId, w, e);
    assert Guarded(matchId, w) && UndoFits(matchId, w) by {
      FreshGuarded(matchId);
      RunGuarded(matchId, Fresh(), es);
    }
    if Honest(w, e) {
      StepKeepsGuarded(matchId, w, e);
      forall more | RunFrom(matchId, v, more).Some? && HonestFrom(matchId, v, more)
        ensures OneCopyEach(matchId, RunFrom(matchId, v, more).value.copies)
      {
        RunGuarded(matchId, v, more);
      }
    } else {
      var r := w.replayers[e.who];
      var more := CopiedAgain(matchId, v, r.kind, r.entry.fields);
      SecondCopy(matchId, v.copies, r.kind, r.entry.fields);
      assert !OneCopyEach(matchId, RunFrom(matchId, v, more).value.copies);
    }
  }

  lemma FreshGuarded<P>(matchId: P -> string)
    ensures Guarded(matchId, Fresh()) && UndoFits(matchId, Fresh())
  {
  }

  lemma SecondCopy<P>(matchId: P -> string, copies: seq<Copy<P>>, kind: Kind, fields: Fields<P>)
    requires Readable(fields) && GuardOf(matchId, kind, fields).matchId != ""
    requires IsCopied(matchId, copies, GuardOf(matchId, kind, fields))
    ensures !OneCopyEach(matchId, copies + [Copy(kind, Replayed(fields))])
  {
    hide Replayed, MatchOf;
    ReplayedMatch(matchId, kind, fields);
    var all := copies + [Copy(kind, Replayed(fields))];
    var i :| 0 <= i < |copies| && CopyGuard(matchId, copies[i]) == GuardOf(matchId, kind, fields);
    assert CopyGuard(matchId, all[i]) == CopyGuard(matchId, all[|copies|]);
  }

  /** In particular a lost reply does no harm exactly if the DEL that follows does not take effect. */
  lemma LostReplyExactly<P(!new)>(matchId: P -> string, es: seq<Event<P>>, who: nat, done: bool)
      returns (run: seq<Event<P>>)
    requires Run(matchId, es).Some? && AllHonest(matchId, es)
    requires var w := Run(matchId, es).value;
             && who in w.replayers && w.replayers[who].Copying? && Readable(w.replayers[who].entry.fields)
             && MatchOf(matchId, w.replayers[who].entry.fields) != ""
    ensures run == es + [Script(who, LostReply)] + [Undo(who, done)] && Run(matchId, run).Some?
    ensures StaysSingle(matchId, Run(matchId, run).value) <==> !done
  {
    hide Replayed, MatchOf, StaysSingle;
    var w := Run(matchId, es).value;
    var v := After(matchId, w, Script(who, LostReply));
    Then(matchId, Fresh(), es, w, Script(who, LostReply));
    run := es + [Script(who, LostReply)];
    SingleExactly(matchId, run, Undo(who, done));
    Then(matchId, Fresh(), run, v, Undo(who, done));
    run := run + [Undo(who, done)];
  }

  /** So every guarded message can be copied twice: its script's reply is lost, and its guard is taken back. */
  lemma LostReplyCopiedTwice<P>(matchId: P -> string, kind: Kind, fields: Fields<P>) returns (es: seq<Event<P>>)
    requires Readable(fields) && MatchOf(matchId, fields) != ""
    ensures Run(matchId, es).Some? && CopiedTwice(Run(matchId, es).value, kind, fields)
  {
    hide Replayed, MatchOf;
    var t, w;
    t, es, w := Taken(matchId, Fresh(), kind, fields);
    Then(matchId, Fresh(), es, w, Script(t, LostReply));
    es, w := es + [Script(t, LostReply)], After(matchId, w, Script(t, LostReply));
    Then(matchId, Fresh(), es, w, Undo(t, true));
    es, w := es + [Undo(t, true)], After(matchId, w, Undo(t, true));
    var more := CopiedAgain(matchId, w, kind, fields);
    RunJoins(matchId, Fresh(), es, w, more);
    es := es + more;
  }

  // ----- The loop itself -----

  /** How the server answers for one message: whether SETNX errors, and then whether it took effect all the
      same; the same of the script; whether DEL errors. */
  datatype Answer = Answer(setNxError: bool, setNxTook: bool, scriptError: bool, scriptTook: bool, delError: bool)

  predicate LosesReply(a: Answer) {
    a.scriptError && a.scriptTook
  }

  /** None of the first n replies is lost; or at least no guard is taken back after one. */
  ghost predicate NoneLost(answers: nat -> Answer, n: nat) {
    forall i :: 0 <= i < n ==> !LosesReply(answers(i))
  }

  ghost predicate GuardsKept(answers: nat -> Answer, n: nat) {
    forall i :: 0 <= i < n ==> LosesReply(answers(i)) ==> answers(i).delError
  }

  lemma LostIsLost<P>(a: Answer, fields: Fields<P>)
    ensures RanOf(a, fields) == LostReply ==> LosesReply(a)
    ensures RanOf(a, fields) != Failed ==> Readable(fields)
  {
  }

  lemma AnswersNext(answers: nat -> Answer, n: nat)
    ensures NoneLost(answers, n + 1) <==> NoneLost(answers, n) && !LosesReply(answers(n))
    ensures GuardsKept(answers, n + 1) <==> GuardsKept(answers, n) && (LosesReply(answers(n)) ==> answers(n).delError)
  {
  }

  ghost function RanOf<P>(a: Answer, fields: Fields<P>): Ran {
    if !Readable(fields) then Failed else if LosesReply(a) then LostReply else if a.scriptError then Failed else Done
  }

  /** The world with one replayer. */
  ghost function Alone<P>(w: World<P>, who: nat, r: Replayer<P>): World<P> {
    w.(replayers := map[who := r])
  }

  /** The next step of the one replayer. */
  lemma ThenAlone<P>(matchId: P -> string, start: World<P>, es: seq<Event<P>>, w: World<P>, who: nat, r: Replayer<P>,
                     e: Event<P>, v: World<P>, next: Replayer<P>)
    requires RunFrom(matchId, start, es) == Some(Alone(w, who, r)) && Enabled(matchId, Alone(w, who, r), e)
    requires After(matchId, Alone(w, who, r), e) == v.(replayers := map[who := r][who := next])
    ensures RunFrom(matchId, start, es + [e]) == Some(Alone(v, who, next))
    ensures HonestFrom(matchId, start, es) && Honest(Alone(w, who, r), e) ==> HonestFrom(matchId, start, es + [e])
    ensures !HonestFrom(matchId, start, es) || !Honest(Alone(w, who, r), e) ==> !HonestFrom(matchId, start, es + [e])
  {
    Then(matchId, start, es, Alone(w, who, r), e);
    assert map[who := r][who := next] == map[who := next];
  }

  ghost function Guarding<P>(w: World<P>, reply: Reply, g: Guard): World<P> {
    w.(guards := if reply == Added || reply == ErrorAfterEffect then w.guards + {g} else w.guards)
  }

  lemma ThenTake<P>(matchId: P -> string, start: World<P>, es: seq<Event<P>>, w: World<P>, who: nat, kind: Kind,
                    todo: seq<Listed<P>>, g: Guard, reply: Reply)
    requires RunFrom(matchId, start, es) == Some(Alone(w, who, Looping(kind, todo)))
    requires todo != [] && g == GuardOf(matchId, kind, todo[0].fields) && g.matchId != ""
    requires (reply == Added || reply == ErrorAfterEffect ==> g !in w.guards) && (reply == Present ==> g in w.guards)
    ensures RunFrom(matchId, start, es + [TakeGuard(who, reply)]) ==
              Some(Alone(Guarding(w, reply, g), who,
                         if reply == Added then Copying(kind, todo[0], todo[1..]) else Looping(kind, todo[1..])))
    ensures HonestFrom(matchId, start, es) <==> HonestFrom(matchId, start, es + [TakeGuard(who, reply)])
  {
    ThenAlone(matchId, start, es, w, who, Looping(kind, todo), TakeGuard(who, reply), Guarding(w, reply, g),
      if reply == Added then Copying(kind, todo[0], todo[1..]) else Looping(kind, todo[1..]));
  }

  lemma ThenNoGuard<P>(matchId: P -> string, start: World<P>, es: seq<Event<P>>, w: World<P>, who: nat, kind: Kind,
                       todo: seq<Listed<P>>)
    requires RunFrom(matchId, start, es) == Some(Alone(w, who, Looping(kind, todo)))
    requires todo != [] && MatchOf(matchId, todo[0].fields) == ""
    ensures RunFrom(matchId, start, es + [NoGuard(who)]) == Some(Alone(w, who, Copying(kind, todo[0], todo[1..])))
    ensures HonestFrom(matchId, start, es) <==> HonestFrom(matchId, start, es + [NoGuard(who)])
  {
    ThenAlone(matchId, start, es, w, who, Looping(kind, todo), NoGuard(who), w, Copying(kind, todo[0], todo[1..]));
  }

  lemma ThenScript<P>(matchId: P -> string, start: World<P>, es: seq<Event<P>>, w: World<P>, who: nat, kind: Kind,
                      m: Listed<P>, todo: seq<Listed<P>>, ran: Ran)
    requires RunFrom(matchId, start, es) == Some(Alone(w, who, Copying(kind, m, todo)))
    requires ran != Failed ==> Readable(m.fields)
    ensures RunFrom(matchId, start, es + [Script(who, ran)]) ==
              Some(Alone(if ran == Failed then w else Copied(w, kind, m), who,
                         if ran == Done || MatchOf(matchId, m.fields) == "" then Looping(kind, todo)
                         else Undoing(kind, m, todo, ran == LostReply)))
    ensures HonestFrom(matchId, start, es) <==> HonestFrom(matchId, start, es + [Script(who, ran)])
  {
    hide Replayed, MatchOf;
    ThenAlone(matchId, start, es, w, who, Copying(kind, m, todo), Script(who, ran),
      if ran == Failed then w else Copied(w, kind, m),
      if ran == Done || MatchOf(matchId, m.fields) == "" then Looping(kind, todo)
      else Undoing(kind, m, todo, ran == LostReply));
  }

  lemma ThenUndo<P>(matchId: P -> string, start: World<P>, es: seq<Event<P>>, w: World<P>, who: nat, kind: Kind,
                    m: Listed<P>, todo: seq<Listed<P>>, copied: bool, done: bool)
    requires RunFrom(matchId, start, es) == Some(Alone(w, who, Undoing(kind, m, todo, copied)))
    ensures RunFrom(matchId, start, es + [Undo(who, done)]) ==
              Some(Alone(w.(guards := if done then w.guards - {GuardOf(matchId, kind, m.fields)} else w.guards), who,
                Looping(kind, todo)))
    ensures HonestFrom(matchId, start, es + [Undo(who, done)]) <==>
              HonestFrom(matchId, start, es) && !(done && copied)
  {
    ThenAlone(matchId, start, es, w, who, Undoing(kind, m, todo, copied), Undo(who, done),
      w.(guards := if done then w.guards - {GuardOf(matchId, kind, m.fields)} else w.guards), Looping(kind, todo));
  }

  predicate TextHeaders<P>(fields: Fields<P>) {
    forall f :: f in fields && f.Header? ==> fields[f].Text?
  }

  lemma ListingFacts<P>(dlq: map<Key, Fields<P>>, lastId: nat, kind: Kind, limit: nat)
    ensures var todo := Listing(dlq, lastId, kind, limit);
            && (forall i :: 0 <= i < |todo| ==> Key(kind, todo[i].id) in dlq
                                                && todo[i].fields == dlq[Key(kind, todo[i].id)])
            && (forall i, j :: 0 <= i < j < |todo| ==> todo[i].id != todo[j].id)
  {
  }

  /** The calls for the first n messages report no error. */
  ghost predicate NoErrors(answers: nat -> Answer, n: nat) {
    forall i :: 0 <= i < n ==> !answers(i).setNxError && !answers(i).scriptError
  }

  /** A listed message that is to be replayed when nothing goes wrong: it has a payload, and its match ID, if it has
      one, is neither guarded already nor that of a message listed before it. */
  ghost predicate Due<P>(matchId: P -> string, kind: Kind, guards: set<Guard>, msgs: seq<Listed<P>>, i: nat)
    requires i < |msgs|
  {
    var id := MatchOf(matchId, msgs[i].fields);
    && Readable(msgs[i].fields)
    && (id != "" ==>
          Guard(kind, id) !in guards && forall j :: 0 <= j < i ==> MatchOf(matchId, msgs[j].fields) != id)
  }

  ghost predicate Accounted<P>(matchId: P -> string, kind: Kind, guards: set<Guard>, msgs: seq<Listed<P>>, i: nat,
      gone: set<Key>, now: set<Guard>)
    requires i <= |msgs|
  {
    && (forall g :: g in now <==>
          g in guards || (g.kind == kind && g.matchId != ""
                          && exists j :: 0 <= j < i && MatchOf(matchId, msgs[j].fields) == g.matchId))
    && (forall j :: 0 <= j < i ==> (Key(kind, msgs[j].id) in gone <==> Due(matchId, kind, guards, msgs, j)))
    && (forall k :: k in gone ==> exists j :: 0 <= j < i && k == Key(kind, msgs[j].id))
  }

  lemma AccountedNext<P>(matchId: P -> string, kind: Kind, guards: set<Guard>, msgs: seq<Listed<P>>, i: nat,
      gone: set<Key>, now: set<Guard>, copied: bool, later: set<Guard>)
    requires i < |msgs| && Accounted(matchId, kind, guards, msgs, i, gone, now)
    requires forall j, k :: 0 <= j < k < |msgs| ==> msgs[j].id != msgs[k].id
    requires var id := MatchOf(matchId, msgs[i].fields);
             && later == (if id == "" then now else now + {Guard(kind, id)})
             && (copied <==> Readable(msgs[i].fields) && (id == "" || Guard(kind, id) !in now))
    ensures Accounted(matchId, kind, guards, msgs, i + 1,
              if copied then gone + {Key(kind, msgs[i].id)} else gone, later)
  {
    hide MatchOf, Readable;
    var id := MatchOf(matchId, msgs[i].fields);
    forall g
      ensures g in later <==>
                g in guards || (g.kind == kind && g.matchId != ""
                                && exists j :: 0 <= j < i + 1 && MatchOf(matchId, msgs[j].fields) == g.matchId)
    {
      if j :| 0 <= j < i && MatchOf(matchId, msgs[j].fields) == g.matchId {
      }
      if g == Guard(kind, id) && id != "" {
        assert MatchOf(matchId, msgs[i].fields) == g.matchId;
      }
    }
    assert copied <==> Due(matchId, kind, guards, msgs, i);
    var after := if copied then gone + {Key(kind, msgs[i].id)} else gone;
    forall j | 0 <= j < i + 1
      ensures Key(kind, msgs[j].id) in after <==> Due(matchId, kind, guards, msgs, j)
    {
    }
  }

  /** The entries from i on are where they were listed. */
  ghost predicate StillThere<P>(keys: set<Key>, kind: Kind, msgs: seq<Listed<P>>, i: nat) {
    && (forall j :: i <= j < |msgs| ==> Key(kind, msgs[j].id) in keys)
    && (forall j, k :: 0 <= j < k < |msgs| ==> msgs[j].id != msgs[k].id)
  }

  lemma StillDistinct<P>(keys: set<Key>, kind: Kind, msgs: seq<Listed<P>>, i: nat)
    requires StillThere(keys, kind, msgs, i)
    ensures forall j, k :: 0 <= j < k < |msgs| ==> msgs[j].id != msgs[k].id
  {
  }

  lemma CleanTurn<P>(answers: nat -> Answer, i: nat, fields: Fields<P>)
    requires NoErrors(answers, i + 1)
    ensures NoErrors(answers, i) && !answers(i).setNxError && !answers(i).scriptError
    ensures RanOf(answers(i), fields) != Failed <==> Readable(fields)
  {
  }

  lemma TurnAccounted<P>(matchId: P -> string, kind: Kind, guards: set<Guard>, msgs: seq<Listed<P>>, i: nat,
      gone: set<Key>, now: set<Guard>, answers: nat -> Answer, skipped: nat, copied: bool, later: set<Key>,
      after: set<Guard>)
    requires i < |msgs| && (NoErrors(answers, i) ==> Accounted(matchId, kind, guards, msgs, i, gone, now))
    requires forall j, k :: 0 <= j < k < |msgs| ==> msgs[j].id != msgs[k].id
    requires var id := MatchOf(matchId, msgs[i].fields);
             && (!answers(i).setNxError && !answers(i).scriptError ==>
                   after == now + if id == "" then {} else {Guard(kind, id)})
             && (skipped == 1 <==> id != "" && (answers(i).setNxError || Guard(kind, id) in now)) && skipped <= 1
    requires copied <==> skipped == 0 && RanOf(answers(i), msgs[i].fields) != Failed
    requires later == if copied then gone + {Key(kind, msgs[i].id)} else gone
    ensures NoErrors(answers, i + 1) ==> Accounted(matchId, kind, guards, msgs, i + 1, later, after)
  {
    hide Accounted, MatchOf, Readable;
    if NoErrors(answers, i + 1) {
      CleanTurn(answers, i, msgs[i].fields);
      AccountedNext(matchId, kind, guards, msgs, i, gone, now, copied, after);
    }
  }

  lemma CleanLosesNone(answers: nat -> Answer, n: nat)
    requires NoErrors(answers, n)
    ensures NoneLost(answers, n)
  {
  }

  lemma OneLess<P>(keys: set<Key>, gone: set<Key>, kind: Kind, msgs: seq<Listed<P>>, i: nat)
    requires StillThere(keys - gone, kind, msgs, i) && i < |msgs|
    ensures var k := Key(kind, msgs[i].id);
            && k in keys - gone && |gone + {k}| == |gone| + 1
            && StillThere(keys - gone, kind, msgs, i + 1) && StillThere(keys - (gone + {k}), kind, msgs, i + 1)
  {
  }

  ghost function Rest<P>(msgs: seq<Listed<P>>, i: nat): (rest: seq<Listed<P>>)
    requires i <= |msgs|
    ensures i == 0 ==> rest == msgs
    ensures i == |msgs| ==> rest == []
  {
    msgs[i..]
  }

  lemma RestNext<P>(msgs: seq<Listed<P>>, i: nat)
    requires i < |msgs|
    ensures Rest(msgs, i) == [msgs[i]] + Rest(msgs, i + 1)
  {
  }

  lemma GoneNext<P>(dlq: map<Key, Fields<P>>, gone: set<Key>, k: Key)
    ensures dlq - gone - {k} == dlq - (gone + {k})
  {
  }

  /** Every entry of the kind has a payload, and match IDs that are not guarded and all different. */
  ghost predicate AllFresh<P>(matchId: P -> string, kind: Kind, guards: set<Guard>, dlq: map<Key, Fields<P>>, hi: nat) {
    && (forall id :: id in KeysOf(dlq.Keys, kind, hi) ==>
          Key(kind, id) in dlq && Readable(dlq[Key(kind, id)])
          && Guard(kind, MatchOf(matchId, dlq[Key(kind, id)])) !in guards)
    && (forall a, b :: a in KeysOf(dlq.Keys, kind, hi) && b in KeysOf(dlq.Keys, kind, hi) && a != b ==>
          MatchOf(matchId, dlq[Key(kind, a)]) == ""
          || MatchOf(matchId, dlq[Key(kind, a)]) != MatchOf(matchId, dlq[Key(kind, b)]))
  }

  /** With a limit that covers them, all of them go, one replayed for each. */
  lemma Drained<P>(matchId: P -> string, kind: Kind, guards: set<Guard>, dlq: map<Key, Fields<P>>, hi: nat, limit: nat,
      gone: set<Key>, now: set<Guard>)
    requires AllFresh(matchId, kind, guards, dlq, hi) && |KeysOf(dlq.Keys, kind, hi)| <= limit
    requires var msgs := Listing(dlq, hi, kind, limit);
             Accounted(matchId, kind, guards, msgs, |msgs|, gone, now)
    ensures KeysOf((dlq - gone).Keys, kind, hi) == {} && |gone| == |KeysOf(dlq.Keys, kind, hi)|
  {
    hide Due, AllFresh, KeysOf, Listing, MatchOf, Readable;
    var all := KeysOf(dlq.Keys, kind, hi);
    var msgs := Listing(dlq, hi, kind, limit);
    AllListed(dlq, hi, kind, limit);
    AllDue(matchId, kind, guards, dlq, hi, limit);
    forall id | id in all
      ensures Key(kind, id) in gone
    {
      var i :| 0 <= i < |msgs| && msgs[i].id == id;
      assert Due(matchId, kind, guards, msgs, i);
    }
    assert gone == set id | id in all :: Key(kind, id);
    KeySize(kind, all);
    NoneLeft(dlq, gone, kind, hi);
  }

  lemma NoneLeft<P>(dlq: map<Key, Fields<P>>, gone: set<Key>, kind: Kind, hi: nat)
    requires forall id :: id in KeysOf(dlq.Keys, kind, hi) ==> Key(kind, id) in gone
    ensures KeysOf((dlq - gone).Keys, kind, hi) == {}
  {
  }

  lemma AllListed<P>(dlq: map<Key, Fields<P>>, hi: nat, kind: Kind, limit: nat)
    requires |KeysOf(dlq.Keys, kind, hi)| <= limit
    ensures var msgs := Listing(dlq, hi, kind, limit);
            && (forall i :: 0 <= i < |msgs| ==> msgs[i].id in KeysOf(dlq.Keys, kind, hi))
            && forall id :: id in KeysOf(dlq.Keys, kind, hi) ==> exists i :: 0 <= i < |msgs| && msgs[i].id == id
  {
    var all := KeysOf(dlq.Keys, kind, hi);
    var ids := Newest(dlq.Keys, kind, hi, limit);
    var msgs := Listing(dlq, hi, kind, limit);
    NewestAll(dlq.Keys, kind, hi, limit);
    forall i | 0 <= i < |ids|
      ensures ids[i] in all
    {
      assert Key(kind, ids[i]) in dlq;
    }
    forall id | id in all
      ensures exists i :: 0 <= i < |msgs| && msgs[i].id == id
    {
      var i :| 0 <= i < |ids| && ids[i] == id;
      assert msgs[i].id == id;
    }
  }

  lemma AllDue<P>(matchId: P -> string, kind: Kind, guards: set<Guard>, dlq: map<Key, Fields<P>>, hi: nat, limit: nat)
    requires AllFresh(matchId, kind, guards, dlq, hi) && |KeysOf(dlq.Keys, kind, hi)| <= limit
    ensures var msgs := Listing(dlq, hi, kind, limit);
            forall i :: 0 <= i < |msgs| ==> Due(matchId, kind, guards, msgs, i)
  {
    hide KeysOf, MatchOf, Readable, Listing;
    AllListed(dlq, hi, kind, limit);
    ListingFacts(dlq, hi, kind, limit);
  }

  lemma {:induction false} KeySize(kind: Kind, ids: set<nat>)
    ensures |set id | id in ids :: Key(kind, id)| == |ids|
  {
    var keys := set id | id in ids :: Key(kind, id);
    if ids != {} {
      var id :| id in ids;
      var fewer := set i | i in ids - {id} :: Key(kind, i);
      KeySize(kind, ids - {id});
      assert keys == fewer + {Key(kind, id)};
    }
  }

  /** How far the loop is, after i of the messages. */
  ghost predicate Progress<P>(matchId: P -> string, kind: Kind, start: World<P>, msgs: seq<Listed<P>>,
      answers: nat -> Answer, i: nat, gone: set<Key>, now: World<P>, replayed: nat, skipped: nat, failed: nat)
    requires i <= |msgs|
  {
    && replayed + skipped + failed == i && replayed <= |gone| <= replayed + failed
    && now.lastId == start.lastId && now.dlq == start.dlq - gone && gone <= start.dlq.Keys
    && |now.copies| == |start.copies| + |gone| && now.copies[..|start.copies|] == start.copies
    && (NoneLost(answers, i) ==> |gone| == replayed)
    && StillThere(start.dlq.Keys - gone, kind, msgs, i)
    && (NoErrors(answers, i) ==> Accounted(matchId, kind, start.guards, msgs, i, gone, now.guards))
  }

  lemma NoProgress<P>(matchId: P -> string, kind: Kind, start: World<P>, msgs: seq<Listed<P>>, answers: nat -> Answer)
    requires StillThere(start.dlq.Keys, kind, msgs, 0)
    ensures Progress(matchId, kind, start, msgs, answers, 0, {}, start, 0, 0, 0) && GuardsKept(answers, 0)
  {
    hide MatchOf;
    assert start.dlq.Keys - {} == start.dlq.Keys;
  }

  /** What one turn changes, as ReplayOne has it. */
  ghost predicate Turn<P>(matchId: P -> string, kind: Kind, m: Listed<P>, a: Answer, now: World<P>, v: World<P>,
      replayed: nat, skipped: nat, failed: nat, copied: bool) {
    var id, k := MatchOf(matchId, m.fields), Key(kind, m.id);
    && v.lastId == now.lastId
    && (copied <==> skipped == 0 && RanOf(a, m.fields) != Failed)
    && v.dlq == (if copied then now.dlq - {k} else now.dlq)
    && |v.copies| == |now.copies| + (if copied then 1 else 0) && v.copies[..|now.copies|] == now.copies
    && (!a.setNxError && !a.scriptError ==> v.guards == now.guards + if id == "" then {} else {Guard(kind, id)})
    && replayed + skipped + failed <= 1
    && (skipped == 1 <==> id != "" && (a.setNxError || Guard(kind, id) in now.guards))
    && (failed == 1 <==> skipped == 0 && RanOf(a, m.fields) != Done)
    && (replayed == 1 <==> skipped == 0 && RanOf(a, m.fields) == Done && k in now.dlq)
  }

  lemma ProgressNext<P>(matchId: P -> string, kind: Kind, start: World<P>, msgs: seq<Listed<P>>,
      answers: nat -> Answer, i: nat, gone: set<Key>, now: World<P>, replayed: nat, skipped: nat, failed: nat,
      v: World<P>, r: nat, s: nat, f: nat, copied: bool)
    requires i < |msgs| && Progress(matchId, kind, start, msgs, answers, i, gone, now, replayed, skipped, failed)
    requires Turn(matchId, kind, msgs[i], answers(i), now, v, r, s, f, copied)
    ensures Progress(matchId, kind, start, msgs, answers, i + 1,
              if copied then gone + {Key(kind, msgs[i].id)} else gone, v, replayed + r, skipped + s, failed + f)
  {
    hide MatchOf, Readable, RanOf, LosesReply, NoneLost, NoErrors, Accounted, StillThere;
    var k := Key(kind, msgs[i].id);
    OneLess(start.dlq.Keys, gone, kind, msgs, i);
    AnswersNext(answers, i);
    LostIsLost(answers(i), msgs[i].fields);
    StillDistinct(start.dlq.Keys - gone, kind, msgs, i);
    GoneNext(start.dlq, gone, k);
    TurnAccounted(matchId, kind, start.guards, msgs, i, gone, now.guards, answers, s, copied,
      if copied then gone + {k} else gone, v.guards);
  }

  lemma ProgressMeans<P>(matchId: P -> string, kind: Kind, start: World<P>, msgs: seq<Listed<P>>,
      answers: nat -> Answer, gone: set<Key>, now: World<P>, replayed: nat, skipped: nat, failed: nat)
    requires Progress(matchId, kind, start, msgs, answers, |msgs|, gone, now, replayed, skipped, failed)
    ensures replayed + skipped + failed == |msgs| && replayed <= |gone| <= replayed + failed
    ensures now.lastId == start.lastId && now.dlq == start.dlq - gone && gone <= start.dlq.Keys
    ensures |now.copies| == |start.copies| + |gone| && now.copies[..|start.copies|] == start.copies
    ensures NoneLost(answers, |msgs|) ==> |gone| == replayed
    ensures NoErrors(answers, |msgs|) ==>
        NoneLost(answers, |msgs|) && Accounted(matchId, kind, start.guards, msgs, |msgs|, gone, now.guards)
  {
    hide Accounted;
    if NoErrors(answers, |msgs|) {
      CleanLosesNone(answers, |msgs|);
    }
  }

  class Server<P> {
    var dlq: map<Key, Fields<P>>
    var lastId: nat
    var guards: set<Guard>
    var copies: seq<Copy<P>>

    constructor ()
      ensures dlq == map[] && lastId == 0 && guards == {} && copies == []
    {
      dlq, lastId, guards, copies := map[], 0, {}, [];
    }

    /** The server with one replayer at work. */
    ghost function Value(who: nat, r: Replayer<P>): World<P>
      reads this
    {
      World(dlq, lastId, guards, copies, map[who := r])
    }

    method List(kind: Kind, limit: nat) returns (msgs: seq<Listed<P>>)
      ensures msgs == Listing(dlq, lastId, kind, limit)
    {
      msgs := [];
      var ids := Newest(dlq.Keys, kind, lastId, limit);
      for i := 0 to |ids|
        invariant |msgs| == i && forall j :: 0 <= j < i ==> msgs[j] == Listed(ids[j], dlq[Key(kind, ids[j])])
      {
        msgs := msgs + [Listed(ids[i], dlq[Key(kind, ids[i])])];
      }
    }

    /** SETNX as the caller sees it. */
    method SetNx(g: Guard, answer: Answer) returns (added: bool, ghost reply: Reply)
      modifies this`guards
      ensures added <==> reply == Added
      ensures reply == Added || reply == ErrorAfterEffect ==> g !in old(guards) && guards == old(guards) + {g}
      ensures reply == Present || reply == ErrorOnly ==> guards == old(guards)
      ensures reply == Present ==> g in guards
      ensures added <==> !answer.setNxError && g !in old(guards)
    {
      added := false;
      if g in guards {
        reply := if answer.setNxError then ErrorOnly else Present;
      } else if answer.setNxError && !answer.setNxTook {
        reply := ErrorOnly;
      } else {
        guards := guards + {g};
        added := !answer.setNxError;
        reply := if added then Added else ErrorAfterEffect;
      }
    }

    method Del(g: Guard, answer: Answer)
      modifies this`guards
      ensures guards == if answer.delError then old(guards) else old(guards) - {g}
    {
      if !answer.delError {
        guards := guards - {g};
      }
    }

    /** One listed message, which another replayer may have removed since. The events are what the step protocol
        makes of it; they are honest unless the guard of a copied message is taken back. */
    method ReplayOne(matchId: P -> string, kind: Kind, m: Listed<P>, answer: Answer, ghost who: nat,
        ghost todo: seq<Listed<P>>)
      returns (replayed: nat, skipped: nat, failed: nat, ghost es: seq<Event<P>>, ghost copied: bool)
      requires TextHeaders(m.fields)
      modifies this
      ensures RunFrom(matchId, old(Value(who, Looping(kind, [m] + todo))), es) == Some(Value(who, Looping(kind, todo)))
      ensures HonestFrom(matchId, old(Value(who, Looping(kind, [m] + todo))), es) <==>
                !(failed == 1 && MatchOf(matchId, m.fields) != "" && RanOf(answer, m.fields) == LostReply
                  && !answer.delError)
      ensures lastId == old(lastId)
      ensures !answer.setNxError && !answer.scriptError ==>
                guards == old(guards) + if MatchOf(matchId, m.fields) == "" then {}
                                        else {Guard(kind, MatchOf(matchId, m.fields))}
      ensures Turn(matchId, kind, m, answer, old(Value(who, Looping(kind, [m] + todo))),
                Value(who, Looping(kind, todo)), replayed, skipped, failed, copied)
      ensures copied <==> skipped == 0 && RanOf(answer, m.fields) != Failed
      ensures copied ==> copies == old(copies) + [Copy(kind, Replayed(m.fields))] && dlq == old(dlq) - {Key(kind, m.id)}
      ensures !copied ==> copies == old(copies) && dlq == old(dlq)
      ensures replayed + skipped + failed <= 1
      ensures skipped == 1 <==>
                MatchOf(matchId, m.fields) != ""
                && (answer.setNxError || Guard(kind, MatchOf(matchId, m.fields)) in old(guards))
      ensures failed == 1 <==> skipped == 0 && RanOf(answer, m.fields) != Done
      ensures replayed == 1 <==> skipped == 0 && RanOf(answer, m.fields) == Done && Key(kind, m.id) in old(dlq)
    {
      hide Replayed, Newest, RunFrom, HonestFrom;
      replayed, skipped, failed, es, copied := 0, 0, 0, [], false;
      ghost var start := Value(who, Looping(kind, [m] + todo));
      Nothing(matchId, start);
      assert ([m] + todo)[1..] == todo;
      var g := Guard(kind, MatchOf(matchId, m.fields));
      if g.matchId != "" {
        var added;
        ghost var reply;
        added, reply := SetNx(g, answer);
        ThenTake(matchId, start, es, start, who, kind, [m] + todo, g, reply);
        es := es + [TakeGuard(who, reply)];
        if !added {
          skipped := 1;
          return;
        }
      } else {
        ThenNoGuard(matchId, start, es, start, who, kind, [m] + todo);
        es := es + [NoGuard(who)];
      }
      ghost var w := Value(who, Copying(kind, m, todo));
      ghost var ran := RanOf(answer, m.fields);
      ThenScript(matchId, start, es, w, who, kind, m, todo, ran);
      es, copied := es + [Script(who, ran)], ran != Failed;
      var deleted := RunScript(kind, m, answer);
      if answer.scriptError || !Readable(m.fields) {
        if g.matchId != "" {
          ThenUndo(matchId, start, es, Value(who, Looping(kind, [])), who, kind, m, todo, ran == LostReply,
            !answer.delError);
          Del(g, answer);
          es := es + [Undo(who, !answer.delError)];
        }
        failed := 1;
        return;
      }
      if deleted {
        replayed := 1;
      }
    }

    /** The script, if it runs: the XADD, then the XDEL, which says whether the entry was still there. */
    method RunScript(kind: Kind, m: Listed<P>, answer: Answer) returns (deleted: bool)
      requires TextHeaders(m.fields)
      modifies this`copies, this`dlq
      ensures RanOf(answer, m.fields) == Failed ==> !deleted && copies == old(copies) && dlq == old(dlq)
      ensures RanOf(answer, m.fields) != Failed ==>
                && (deleted <==> Key(kind, m.id) in old(dlq))
                && copies == old(copies) + [Copy(kind, Replayed(m.fields))] && dlq == old(dlq) - {Key(kind, m.id)}
    {
      deleted := false;
      if Readable(m.fields) && (!answer.scriptError || answer.scriptTook) {
        var vals := ReplayValues(m.fields);
        copies := copies + [Copy(kind, vals)];
        deleted := Key(kind, m.id) in dlq;
        dlq := dlq - {Key(kind, m.id)};
      }
    }

    /** Replay of one DLQ stream. Every listed message is replayed, skipped or failed; what leaves the DLQ and what
        is added to the stream are as many: all replayed and, of the failed, those whose reply was lost. What the
        loop does is a run of the step protocol. */
    method ReplayStream(matchId: P -> string, kind: Kind, limit: nat, dryRun: bool, answers: nat -> Answer,
        ghost who: nat)
      returns (replayed: nat, skipped: nat, failed: nat, ghost es: seq<Event<P>>, ghost gone: set<Key>)
      requires forall k :: k in dlq ==> TextHeaders(dlq[k])
      modifies this
      ensures var todo := Listing(old(dlq), lastId, kind, limit);
              && replayed + skipped + failed == (if dryRun then 0 else |todo|)
              && RunFrom(matchId, old(Value(who, Looping(kind, todo))), es) ==
                Some(Value(who, Looping(kind, if dryRun then todo else [])))
              && (GuardsKept(answers, |todo|) ==> HonestFrom(matchId, old(Value(who, Looping(kind, todo))), es))
      ensures lastId == old(lastId) && dlq == old(dlq) - gone && gone <= old(dlq.Keys)
      ensures |copies| == |old(copies)| + |gone| && copies[..|old(copies)|] == old(copies)
      ensures replayed <= |gone| <= replayed + failed
      ensures NoneLost(answers, replayed + skipped + failed) ==> |gone| == replayed
      ensures var todo := Listing(old(dlq), lastId, kind, limit);
              NoErrors(answers, |todo|) && !dryRun ==>
                && (forall i :: 0 <= i < |todo| ==>
                      (Key(kind, todo[i].id) in gone <==> Due(matchId, kind, old(guards), todo, i)))
                && (AllFresh(matchId, kind, old(guards), old(dlq), lastId)
                    && |KeysOf(old(dlq.Keys), kind, lastId)| <= limit ==>
                      KeysOf(dlq.Keys, kind, lastId) == {} && replayed == |KeysOf(old(dlq.Keys), kind, lastId)|)
    {
      var msgs := List(kind, limit);
      ListingFacts(dlq, lastId, kind, limit);
      replayed, skipped, failed, es, gone := 0, 0, 0, [], {};
      if dryRun {
        Nothing(matchId, Value(who, Looping(kind, msgs)));
        return;
      }
      replayed, skipped, failed, es, gone := ReplayAll(matchId, kind, msgs, answers, who);
      if NoErrors(answers, |msgs|) && AllFresh(matchId, kind, old(guards), old(dlq), lastId)
         && |KeysOf(old(dlq.Keys), kind, lastId)| <= limit {
        Drained(matchId, kind, old(guards), old(dlq), lastId, limit, gone, guards);
      }
    }

    /** The loop over what was listed. */
    method ReplayAll(matchId: P -> string, kind: Kind, msgs: seq<Listed<P>>, answers: nat -> Answer, ghost who: nat)
      returns (replayed: nat, skipped: nat, failed: nat, ghost es: seq<Event<P>>, ghost gone: set<Key>)
      requires StillThere(dlq.Keys, kind, msgs, 0) && forall i :: 0 <= i < |msgs| ==> TextHeaders(msgs[i].fields)
      modifies this
      ensures replayed + skipped + failed == |msgs|
      ensures RunFrom(matchId, old(Value(who, Looping(kind, msgs))), es) == Some(Value(who, Looping(kind, [])))
      ensures GuardsKept(answers, |msgs|) ==> HonestFrom(matchId, old(Value(who, Looping(kind, msgs))), es)
      ensures lastId == old(lastId) && dlq == old(dlq) - gone && gone <= old(dlq.Keys)
      ensures |copies| == |old(copies)| + |gone| && copies[..|old(copies)|] == old(copies)
      ensures replayed <= |gone| <= replayed + failed
      ensures NoneLost(answers, |msgs|) ==> |gone| == replayed
      ensures NoErrors(answers, |msgs|) ==>
                NoneLost(answers, |msgs|) && Accounted(matchId, kind, old(guards), msgs, |msgs|, gone, guards)
    {
      hide Replayed, TextHeaders, RunFrom, HonestFrom, MatchOf, GuardOf, Readable;
      replayed, skipped, failed, es, gone := 0, 0, 0, [], {};
      ghost var start := Value(who, Looping(kind, msgs));
      Nothing(matchId, start);
      NoProgress(matchId, kind, start, msgs, answers);
      hide Progress, Turn, GuardsKept, RanOf, LosesReply, StillThere, Rest;
      ghost var here := start;
      for i := 0 to |msgs|
        invariant RunFrom(matchId, start, es) == Some(here) && here == Value(who, Looping(kind, Rest(msgs, i)))
        invariant GuardsKept(answers, i) ==> HonestFrom(matchId, start, es)
        invariant Progress(matchId, kind, start, msgs, answers, i, gone, here, replayed, skipped, failed)
      {
        AnswersNext(answers, i);
        LostIsLost(answers(i), msgs[i].fields);
        RestNext(msgs, i);
        var r, s, f;
        ghost var more, copied;
        r, s, f, more, copied := ReplayOne(matchId, kind, msgs[i], answers(i), who, Rest(msgs, i + 1));
        ghost var next := Value(who, Looping(kind, Rest(msgs, i + 1)));
        ProgressNext(matchId, kind, start, msgs, answers, i, gone, here, replayed, skipped, failed, next, r, s, f,
          copied);
        RunJoins(matchId, start, es, here, more);
        replayed, skipped, failed := replayed + r, skipped + s, failed + f;
        gone := if copied then gone + {Key(kind, msgs[i].id)} else gone;
        here, es := next, es + more;
      }
      ProgressMeans(matchId, kind, start, msgs, answers, gone, here, replayed, skipped, failed);
    }
  }
}
