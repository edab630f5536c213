/** The in-memory payload store (go-ingestion/internal/payload/inmem/store.go). Times are numbers; an entry
    without a deadline never expires. */
module PayloadStore {
  import opened Decimal

  const DEFAULT_EXTENSION := 3_600_000_000_000

  datatype Entry<P> = Entry(data: P, deadline: Option<int>)

  ghost predicate Expired<P>(e: Entry<P>, now: int) {
    e.deadline.Some? && now > e.deadline.value
  }

  class Store<P> {
    var m: map<string, Entry<P>>

    constructor ()
      ensures m == map[]
    {
      m := map[];
    }

    method Put(key: string, data: P, ttl: int, now: int)
      modifies this
      ensures m == Putted(old(m), key, data, ttl, now)
      ensures m == old(m)[key := Entry(data, if ttl > 0 then Some(now + ttl) else None)]
    {
      var exp := None;
      if ttl > 0 {
        exp := Some(now + ttl);
      }
      m := m[key := Entry(data, exp)];
    }

    /** None stands for ErrNotFound. An expired entry is deleted on sight. */
    method Get(key: string, now: int) returns (data: Option<P>)
      modifies this
      ensures data == Found(old(m), key, now) && m == Purged(old(m), key, now)
      ensures data.Some? <==> key in old(m) && (old(m)[key].deadline.None? || now <= old(m)[key].deadline.value)
      ensures data.Some? ==> data.value == old(m)[key].data && m == old(m)
      ensures data.None? ==> m == old(m) - {key}
    {
      if key !in m {
        return None;
      }
      var e := m[key];
      if e.deadline.Some? && now > e.deadline.value {
        m := m - {key};
        return None;
      }
      return Some(e.data);
    }

    method Delete(key: string)
      modifies this
      ensures m == old(m) - {key}
    {
      m := m - {key};
    }

    method ExtendTTL(key: string, ttl: int, now: int) returns (ok: bool)
      modifies this
      ensures ok <==> key in old(m)
      ensures m == Extended(old(m), key, ttl, now)
      ensures ok ==> m == old(m)[key := Entry(old(m)[key].data,
                                              Some(now + if ttl <= 0 then 3_600_000_000_000 else ttl))]
      ensures !ok ==> m == old(m)
    {
      if key !in m {
        return false;
      }
      var t := ttl;
      if t <= 0 {
        t := DEFAULT_EXTENSION;
      }
      m := m[key := m[key].(deadline := Some(now + t))];
      return true;
    }
  }

  // ----- The store as a value -----

  ghost function Putted<P>(m: map<string, Entry<P>>, key: string, data: P, ttl: int, now: int): map<string, Entry<P>> {
    m[key := Entry(data, if ttl > 0 then Some(now + ttl) else None)]
  }

  ghost function Found<P>(m: map<string, Entry<P>>, key: string, now: int): Option<P> {
    if key in m && !Expired(m[key], now) then Some(m[key].data) else None
  }

  ghost function Purged<P>(m: map<string, Entry<P>>, key: string, now: int): map<string, Entry<P>> {
    if key in m && Expired(m[key], now) then m - {key} else m
  }

  ghost function Extended<P>(m: map<string, Entry<P>>, key: string, ttl: int, now: int): map<string, Entry<P>> {
    if key in m then m[key := m[key].(deadline := Some(now + if ttl <= 0 then DEFAULT_EXTENSION else ttl))] else m
  }

  // ----- Runs -----

  datatype Op<P> =
    | Put(key: string, data: P, ttl: int)
    | Get(key: string)
    | Delete(key: string)
    | Extend(key: string, ttl: int)

  datatype Timed<P> = Timed(op: Op<P>, now: int)

  ghost function Run<P>(ops: seq<Timed<P>>): map<string, Entry<P>> {
    if ops == [] then map[]
    else
      var m := Run(ops[..|ops| - 1]);
      var t := ops[|ops| - 1];
      match t.op
      case Put(key, data, ttl) => Putted(m, key, data, ttl, t.now)
      case Get(key) => Purged(m, key, t.now)
      case Delete(key) => m - {key}
      case Extend(key, ttl) => Extended(m, key, ttl, t.now)
  }

  /** What callers can expect under a key: the data of the last Put, if no Delete followed, until a deadline that
      the Put or an Extend in time has set. Reads have no part in it, and expired data stays expired. */
  ghost function Promised<P>(ops: seq<Timed<P>>, key: string): Option<Entry<P>> {
    if ops == [] then None
    else
      var before := Promised(ops[..|ops| - 1], key);
      var t := ops[|ops| - 1];
      match t.op
      case Put(k, data, ttl) =>
        if k == key then Some(Entry(data, if ttl > 0 then Some(t.now + ttl) else None)) else before
      case Get(_) => before
      case Delete(k) => if k == key then None else before
      case Extend(k, ttl) =>
        if k == key && before.Some? && !Expired(before.value, t.now)
        then Some(before.value.(deadline := Some(t.now + if ttl <= 0 then DEFAULT_EXTENSION else ttl))) else before
  }

  /** What a look at the promise shows. */
  ghost function Look<P>(promised: Option<Entry<P>>, now: int): Option<P> {
    if promised.Some? && !Expired(promised.value, now) then Some(promised.value.data) else None
  }

  ghost predicate Monotone<P>(ops: seq<Timed<P>>) {
    forall i, j :: 0 <= i < j < |ops| ==> ops[i].now <= ops[j].now
  }

  /** Some Get came when the entry was expired. */
  ghost predicate ReadExpired<P>(ops: seq<Timed<P>>, key: string, e: Entry<P>) {
    exists i :: 0 <= i < |ops| && ops[i].op == Get(key) && Expired(e, ops[i].now)
  }

  /** The last operation extends data that has expired. */
  ghost predicate LateExtend<P>(ops: seq<Timed<P>>, key: string)
    requires ops != []
  {
    var t := ops[|ops| - 1];
    var before := Promised(ops[..|ops| - 1], key);
    t.op.Extend? && t.op.key == key && before.Some? && Expired(before.value, t.now)
  }

  /** Every Extend that comes too late comes after a read that came too late, too. */
  ghost predicate LateExtendsRead<P>(ops: seq<Timed<P>>, key: string) {
    ops == []
    || (LateExtendsRead(ops[..|ops| - 1], key)
        && (LateExtend(ops, key) ==> ReadExpired(ops[..|ops| - 1], key, Promised(ops[..|ops| - 1], key).value)))
  }

  ghost predicate Agrees<P>(m: map<string, Entry<P>>, ops: seq<Timed<P>>, key: string) {
    if key in m then Promised(ops, key) == Some(m[key]) && !ReadExpired(ops, key, m[key])
    else Promised(ops, key).Some? ==> ReadExpired(ops, key, Promised(ops, key).value)
  }

  lemma ReadExpiredSnoc<P>(ops: seq<Timed<P>>, key: string, e: Entry<P>)
    requires ops != []
    ensures ReadExpired(ops, key, e) <==>
              ReadExpired(ops[..|ops| - 1], key, e) || (ops[|ops| - 1].op == Get(key) && Expired(e, ops[|ops| - 1].now))
  {
    var init := ops[..|ops| - 1];
    if ReadExpired(init, key, e) {
      var i :| 0 <= i < |init| && init[i].op == Get(key) && Expired(e, init[i].now);
      assert ops[i] == init[i];
    }
    if ReadExpired(ops, key, e) {
      var i :| 0 <= i < |ops| && ops[i].op == Get(key) && Expired(e, ops[i].now);
      assert i < |init| ==> init[i] == ops[i];
    }
  }

  /** A deadline still ahead was never missed. */
  lemma NotYetExpired<P>(ops: seq<Timed<P>>, key: string, e: Entry<P>, now: int)
    requires Monotone(ops) && (ops != [] ==> ops[|ops| - 1].now <= now) && !Expired(e, now)
    ensures !ReadExpired(ops, key, e)
  {
    forall i | 0 <= i < |ops|
      ensures !Expired(e, ops[i].now)
    {
      assert ops[i].now <= ops[|ops| - 1].now;
    }
  }

  lemma ReadExpiredStays<P>(ops: seq<Timed<P>>, key: string, e: Entry<P>, now: int)
    requires Monotone(ops) && (ops != [] ==> ops[|ops| - 1].now <= now) && ReadExpired(ops, key, e)
    ensures Expired(e, now)
  {
    if !Expired(e, now) {
      NotYetExpired(ops, key, e, now);
    }
  }

  lemma {:induction false} RunAgrees<P>(ops: seq<Timed<P>>, key: string)
    requires Monotone(ops) && LateExtendsRead(ops, key)
    ensures Agrees(Run(ops), ops, key)
  {
    if ops != [] {
      var init, t := ops[..|ops| - 1], ops[|ops| - 1];
      RunAgrees(init, key);
      if Promised(ops, key).Some? {
        var e := Promised(ops, key).value;
        ReadExpiredSnoc(ops, key, e);
        if !Expired(e, t.now) {
          NotYetExpired(ops, key, e, t.now);
        }
        if ReadExpired(init, key, e) {
          assert init != [] ==> init[|init| - 1].now <= t.now;
          ReadExpiredStays(init, key, e, t.now);
        }
      }
    }
  }

  /** With a clock that never goes back, Get finds the data of the last Put exactly until its deadline and unless
      deleted, provided each Extend that came too late came after such a Get. */
  lemma GetExactly<P>(ops: seq<Timed<P>>, key: string, now: int)
    requires Monotone(ops) && LateExtendsRead(ops, key) && (ops != [] ==> ops[|ops| - 1].now <= now)
    ensures Found(Run(ops), key, now) == Look(Promised(ops, key), now)
  {
    RunAgrees(ops, key);
    if Promised(ops, key).Some? && ReadExpired(ops, key, Promised(ops, key).value) {
      ReadExpiredStays(ops, key, Promised(ops, key).value, now);
    }
  }

  /** An Extend that comes too late revives the data exactly if no Get came too late before. */
  lemma LateExtendExactly<P>(ops: seq<Timed<P>>, key: string, e: Entry<P>, ttl: int, now: int)
    requires Monotone(ops) && LateExtendsRead(ops, key) && (ops != [] ==> ops[|ops| - 1].now <= now)
    requires Promised(ops, key) == Some(e) && Expired(e, now)
    ensures Found(Run(ops + [Timed(Extend(key, ttl), now)]), key, now) == Some(e.data) <==> !ReadExpired(ops, key, e)
    ensures Promised(ops + [Timed(Extend(key, ttl), now)], key) == Some(e)
  {
    RunAgrees(ops, key);
    assert (ops + [Timed(Extend(key, ttl), now)])[..|ops|] == ops;
  }

  /** At every moment of the run a look finds what is promised. */
  ghost predicate AlwaysKept<P>(ops: seq<Timed<P>>, key: string) {
    ops == []
    || (AlwaysKept(ops[..|ops| - 1], key)
        && Found(Run(ops), key, ops[|ops| - 1].now) == Look(Promised(ops, key), ops[|ops| - 1].now))
  }

  /** The promise is kept throughout exactly if every late Extend comes after a late read. */
  lemma {:induction false} KeptExactly<P>(ops: seq<Timed<P>>, key: string)
    requires Monotone(ops)
    ensures AlwaysKept(ops, key) <==> LateExtendsRead(ops, key)
  {
    if ops != [] {
      var init, t := ops[..|ops| - 1], ops[|ops| - 1];
      KeptExactly(init, key);
      if LateExtendsRead(ops, key) {
        GetExactly(ops, key, t.now);
      } else if LateExtendsRead(init, key) {
        var e := Promised(init, key).value;
        assert ops == init + [Timed(Extend(key, t.op.ttl), t.now)];
        LateExtendExactly(init, key, e, t.op.ttl, t.now);
      }
    }
  }

  ghost function Late<P>(key: string, data: P, read: bool): seq<Timed<P>> {
    [Timed(Put(key, data, 1), 0)] + (if read then [Timed(Get(key), 5)] else []) + [Timed(Extend(key, 10), 6)]
  }

  /** An Extend that comes too late revives an expired payload, unless a Get has looked at it in between. */
  lemma LateExtendRevives<P>(key: string, data: P)
    ensures Found(Run(Late(key, data, false)), key, 6) == Some(data)
    ensures Found(Run(Late(key, data, true)), key, 6) == None
  {
    var put := Timed(Op.Put(key, data, 1), 0);
    var get: Timed<P> := Timed(Op.Get(key), 5);
    var extend: Timed<P> := Timed(Op.Extend(key, 10), 6);
    assert Late(key, data, false) == [put, extend] && Late(key, data, true) == [put, get, extend];
    assert [put][..0] == [] && [put, extend][..1] == [put] && [put, get][..1] == [put]
        && [put, get, extend][..2] == [put, get];
    assert Run([put]) == map[key := Entry(data, Some(1))];
    assert Run([put, get]) == map[];
  }
}
