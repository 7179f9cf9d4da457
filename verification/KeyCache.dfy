/**
 * The client's cache of the signer's keys and the revision it is labelled with.
 *
 * Time is counted in HTTP calls: what the signer would say to call number `t` is a function
 * of `t`, so keys may change between any two calls, whoever changes them.
 */
module KeyCache {
  import opened Basics

  datatype Key = Key(address: string, details: string)

  /** One element of a `/keys` reply; `None` lacks a mandatory field and makes parsing raise. */
  type Entry = Option<Key>

  /** What the signer answers to call number `t`, if an answer arrives at all. */
  datatype Signer = Signer(
    answers: nat -> bool,
    entries: nat -> seq<Entry>,
    revision: nat -> int,
    locked: nat -> bool,
    names: nat -> bool)
  {
    /** The revision grows on every change of the keys. */
    ghost predicate Versioned() {
      forall s: nat, t: nat :: s <= t ==>
        revision(s) <= revision(t) && (revision(s) == revision(t) ==> entries(s) == entries(t))
    }
  }

  datatype Error = Unavailable | Locked | Malformed

  datatype State = State(calls: nat, cache: seq<Key>, tag: Option<int>)

  type Answer<T> = (State, Result<T, Error>)

  const Start := State(0, [], None)

  // ---- The reply and the insertion-ordered dictionary it fills ----

  predicate Whole(entries: seq<Entry>) {
    forall i :: 0 <= i < |entries| ==> entries[i].Some?
  }

  /** The keys before the first malformed entry. */
  function Parsed(entries: seq<Entry>): (keys: seq<Key>)
    ensures |keys| <= |entries|
    ensures forall i :: 0 <= i < |keys| ==> entries[i] == Some(keys[i])
    ensures |keys| == |entries| <==> Whole(entries)
    ensures |keys| < |entries| ==> entries[|keys|].None?
  {
    if entries == [] || entries[0].None? then []
    else
      var rest := Parsed(entries[1..]);
      assert forall i :: 0 < i < |entries| ==> entries[i] == entries[1..][i - 1];
      [entries[0].value] + rest
  }

  predicate Keyed(cache: seq<Key>) {
    forall i, j :: 0 <= i < j < |cache| ==> cache[i].address != cache[j].address
  }

  function Find(cache: seq<Key>, address: string): (r: Option<Key>) {
    if cache == [] then None
    else if cache[0].address == address then Some(cache[0])
    else Find(cache[1..], address)
  }

  /** Assignment to a dictionary entry: in place when the address is known, else at the end. */
  function Put(cache: seq<Key>, key: Key): (r: seq<Key>) {
    if cache == [] then [key]
    else if cache[0].address == key.address then [key] + cache[1..]
    else [cache[0]] + Put(cache[1..], key)
  }

  function Collapse(keys: seq<Key>): (cache: seq<Key>) {
    if keys == [] then [] else Put(Collapse(keys[..|keys| - 1]), keys[|keys| - 1])
  }

  lemma CollapseAppend(keys: seq<Key>, key: Key)
    ensures Collapse(keys + [key]) == Put(Collapse(keys), key)
  {
    assert (keys + [key])[..|keys|] == keys;
  }

  lemma {:induction false} FindMember(cache: seq<Key>, address: string)
    ensures Find(cache, address).Some? ==>
              Find(cache, address).value in cache && Find(cache, address).value.address == address
  {
    if cache != [] && cache[0].address != address {
      FindMember(cache[1..], address);
    }
  }

  lemma {:induction false} FindAll(cache: seq<Key>, key: Key)
    requires key in cache
    ensures Find(cache, key.address).Some?
  {
    if cache[0].address != key.address {
      FindAll(cache[1..], key);
    }
  }

  /** A dictionary entry can be read back, and no other address is disturbed. */
  lemma {:induction false} PutFind(cache: seq<Key>, key: Key, address: string)
    ensures Find(Put(cache, key), address) ==
            if address == key.address then Some(key) else Find(cache, address)
  {
    if cache != [] && cache[0].address != key.address {
      PutFind(cache[1..], key, address);
      assert Put(cache, key)[1..] == Put(cache[1..], key);
    } else if cache != [] {
      assert Put(cache, key)[1..] == cache[1..];
    }
  }

  lemma {:induction false} PutNew(cache: seq<Key>, key: Key)
    requires Find(cache, key.address).None?
    ensures Put(cache, key) == cache + [key]
  {
    if cache != [] {
      PutNew(cache[1..], key);
      assert [cache[0]] + cache[1..] == cache;
    }
  }

  lemma {:induction false} PutAddresses(cache: seq<Key>, key: Key)
    ensures forall i :: 0 <= i < |cache| ==>
              i < |Put(cache, key)| && Put(cache, key)[i].address == cache[i].address
    ensures |Put(cache, key)| == |cache|
            || (Put(cache, key) == cache + [key] && Find(cache, key.address).None?)
  {
    if cache != [] && cache[0].address != key.address {
      PutAddresses(cache[1..], key);
      assert cache == [cache[0]] + cache[1..];
    }
  }

  lemma {:induction false} CollapseKeyed(keys: seq<Key>)
    ensures Keyed(Collapse(keys))
  {
    if keys != [] {
      var front, last := keys[..|keys| - 1], keys[|keys| - 1];
      CollapseKeyed(front);
      var before := Collapse(front);
      PutAddresses(before, last);
      if |Put(before, last)| != |before| {
        forall i | 0 <= i < |before| ensures before[i].address != last.address {
          if before[i].address == last.address {
            FindAll(before, before[i]);
          }
        }
      }
    }
  }

  /** Under each address the dictionary holds the last key listed for it, and nothing else. */
  function LastFor(keys: seq<Key>, address: string): (r: Option<Key>) {
    if keys == [] then None
    else if keys[|keys| - 1].address == address then Some(keys[|keys| - 1])
    else LastFor(keys[..|keys| - 1], address)
  }

  lemma {:induction false} LastForMember(keys: seq<Key>, address: string)
    ensures LastFor(keys, address).Some? ==>
              LastFor(keys, address).value in keys && LastFor(keys, address).value.address == address
    ensures LastFor(keys, address).None? ==> forall i :: 0 <= i < |keys| ==> keys[i].address != address
  {
    if keys != [] {
      LastForMember(keys[..|keys| - 1], address);
    }
  }

  lemma {:induction false} CollapseKeepsLast(keys: seq<Key>, address: string)
    ensures Find(Collapse(keys), address) == LastFor(keys, address)
  {
    if keys != [] {
      var front, last := keys[..|keys| - 1], keys[|keys| - 1];
      CollapseKeepsLast(front, address);
      PutFind(Collapse(front), last, address);
    }
  }

  /** The dictionary lists the reply unchanged exactly when no address occurs twice. */
  lemma {:induction false} CollapseIsIdentity(keys: seq<Key>)
    ensures Collapse(keys) == keys <==> Keyed(keys)
  {
    CollapseKeyed(keys);
    if Keyed(keys) && keys != [] {
      var front, last := keys[..|keys| - 1], keys[|keys| - 1];
      CollapseIsIdentity(front);
      assert keys == front + [last];
      if Find(front, last.address).Some? {
        FindMember(front, last.address);
        assert false;
      }
      PutNew(front, last);
    }
  }

  // ---- The client's calls ----

  function Refresh(w: Signer, s: State): (r: Answer<seq<Key>>) {
    if !w.answers(s.calls) then (s.(calls := s.calls + 1), Failure(Unavailable))
    else
      var entries := w.entries(s.calls);
      (State(s.calls + 1, Collapse(Parsed(entries)), None),
       if Whole(entries) then Success(Parsed(entries)) else Failure(Malformed))
  }

  function ListKeys(w: Signer, s: State, refresh: bool): (r: Answer<seq<Key>>) {
    if !refresh && s.cache != [] then (s, Success(s.cache)) else Refresh(w, s)
  }

  function ListIfChanged(w: Signer, s: State): (r: Answer<seq<Key>>) {
    var t := s.calls;
    var asked := s.(calls := t + 1);
    if !w.answers(t) then (asked, Failure(Unavailable))
    else if w.locked(t) then (asked, Failure(Locked))
    else if s.cache != [] && s.tag == Some(w.revision(t)) then (asked, Success(s.cache))
    else
      var (after, keys) := Refresh(w, asked);
      (if keys.Success? then after.(tag := Some(w.revision(t))) else after, keys)
  }

  function GetKeyInfo(w: Signer, s: State, address: string): (r: Answer<Option<Key>>) {
    if Find(s.cache, address).Some? then (s, Success(Find(s.cache, address)))
    else
      var (after, keys) := Refresh(w, s);
      (after, if keys.Success? then Success(Find(after.cache, address)) else Failure(keys.error))
  }

  /** Generating or deleting a key: an accepted call drops the cache and its tag. */
  function Mutate(w: Signer, s: State): (r: Answer<()>) {
    var t := s.calls;
    if !w.answers(t) then (s.(calls := t + 1), Failure(Unavailable))
    else (State(t + 1, [], None), if w.names(t) then Success(()) else Failure(Malformed))
  }

  // ---- When a call succeeds, and what it leaves ----------------------------

  /** An unanswered fetch changes nothing; an answered one replaces the cache by what parsed and drops the label. */
  ghost predicate Fetches(w: Signer, s: State, after: State, r: Result<seq<Key>, Error>) {
    && after.calls == s.calls + 1
    && (r.Success? <==> w.answers(s.calls) && Whole(w.entries(s.calls)))
    && (r.Success? ==> r.value == Parsed(w.entries(s.calls)))
    && (r.Failure? ==> r.error == if w.answers(s.calls) then Malformed else Unavailable)
    && (w.answers(s.calls) ==> after.tag.None? && HoldsLast(after.cache, Parsed(w.entries(s.calls))))
    && (!w.answers(s.calls) ==> after.cache == s.cache && after.tag == s.tag)
  }

  /** The dictionary of a reply: one entry per address, the last one listed. */
  ghost predicate HoldsLast(cache: seq<Key>, keys: seq<Key>) {
    && Keyed(cache)
    && (forall k :: k in cache <==> k in keys && LastFor(keys, k.address) == Some(k))
  }

  /** Whether the status call lets the cache be used as it is. */
  predicate Hit(w: Signer, s: State) {
    w.answers(s.calls) && !w.locked(s.calls) && s.cache != [] && s.tag == Some(w.revision(s.calls))
  }

  /**
   * The revision-checked listing, call for call. It succeeds exactly when the status call answers
   * unlocked and either the cache carries the reported revision or the fetch after it comes back whole.
   */
  ghost predicate Checks(w: Signer, s: State, after: State, r: Result<seq<Key>, Error>) {
    var t := s.calls;
    var open := w.answers(t) && !w.locked(t);
    && (r.Success? <==> Hit(w, s) || (open && w.answers(t + 1) && Whole(w.entries(t + 1))))
    && (Hit(w, s) ==> after == State(t + 1, s.cache, s.tag) && r == Success(s.cache))
    && (!open ==> after == State(t + 1, s.cache, s.tag) && r == Failure(if w.answers(t) then Locked else Unavailable))
    && (open && !Hit(w, s) ==>
          && Fetches(w, State(t + 1, s.cache, s.tag), after.(tag := if r.Success? then None else after.tag), r)
          && (r.Success? ==> after.tag == Some(w.revision(t))))
  }

  /** The lookup: from the cache without a call, else from a fetch, of which it takes the last key under the address. */
  ghost predicate LooksUp(w: Signer, s: State, address: string, after: State, r: Result<Option<Key>, Error>) {
    if exists k :: k in s.cache && k.address == address then
      after == s && r.Success? && r.value.Some? && r.value.value in s.cache && r.value.value.address == address
    else
      && Fetches(w, s, after, if r.Success? then Success(Parsed(w.entries(s.calls))) else Failure(r.error))
      && (r.Success? ==> r.value == LastFor(Parsed(w.entries(s.calls)), address))
  }

  lemma CollapseHoldsLast(keys: seq<Key>)
    ensures HoldsLast(Collapse(keys), keys)
  {
    var cache := Collapse(keys);
    CollapseKeyed(keys);
    forall k ensures k in cache <==> k in keys && LastFor(keys, k.address) == Some(k) {
      CollapseKeepsLast(keys, k.address);
      LastForMember(keys, k.address);
      FindMember(cache, k.address);
      if k in cache {
        FindAll(cache, k);
        OneEntry(cache, k, Find(cache, k.address).value);
      }
    }
  }

  lemma OneEntry(cache: seq<Key>, a: Key, b: Key)
    requires Keyed(cache) && a in cache && b in cache && a.address == b.address
    ensures a == b
  {
  }

  lemma RefreshFetches(w: Signer, s: State)
    ensures Fetches(w, s, Refresh(w, s).0, Refresh(w, s).1)
  {
    CollapseHoldsLast(Parsed(w.entries(s.calls)));
  }

  lemma ListIfChangedChecks(w: Signer, s: State)
    ensures Checks(w, s, ListIfChanged(w, s).0, ListIfChanged(w, s).1)
  {
    RefreshFetches(w, s.(calls := s.calls + 1));
  }

  lemma GetKeyInfoLooksUp(w: Signer, s: State, address: string)
    ensures LooksUp(w, s, address, GetKeyInfo(w, s, address).0, GetKeyInfo(w, s, address).1)
  {
    RefreshFetches(w, s);
    FindMember(s.cache, address);
    CollapseKeepsLast(Parsed(w.entries(s.calls)), address);
    if k :| k in s.cache && k.address == address {
      FindAll(s.cache, k);
    }
  }

  datatype Call =
    | CallListKeys(refresh: bool)
    | CallListIfChanged
    | CallGetKeyInfo(address: string)
    | CallMutate

  function Step(w: Signer, s: State, c: Call): (r: State) {
    match c
    case CallListKeys(refresh) => ListKeys(w, s, refresh).0
    case CallListIfChanged => ListIfChanged(w, s).0
    case CallGetKeyInfo(address) => GetKeyInfo(w, s, address).0
    case CallMutate => Mutate(w, s).0
  }

  function Run(w: Signer, calls: seq<Call>): (r: State) {
    if calls == [] then Start
    else Step(w, Run(w, calls[..|calls| - 1]), calls[|calls| - 1])
  }

  // ---- What every run keeps ----

  /** The cache is what the client kept of the reply to an earlier call `t`. */
  ghost predicate CachedAt(w: Signer, s: State, t: nat) {
    t < s.calls && s.cache == Collapse(Parsed(w.entries(t)))
  }

  /** The label was taken no later than the contents, and the contents are a whole reply. */
  ghost predicate LabelledAt(w: Signer, s: State, taken: nat, t: nat) {
    taken <= t && CachedAt(w, s, t) && Whole(w.entries(t)) && s.tag == Some(w.revision(taken))
  }

  ghost predicate Agrees(w: Signer, s: State) {
    && (s.cache != [] ==> exists t: nat :: CachedAt(w, s, t))
    && (s.tag.Some? ==> exists taken: nat, t: nat :: LabelledAt(w, s, taken, t))
  }

  lemma LaterAgrees(w: Signer, s: State, s': State)
    requires Agrees(w, s) && s.calls <= s'.calls && s'.cache == s.cache && s'.tag == s.tag
    ensures Agrees(w, s')
  {
    if s.cache != [] {
      var t: nat :| CachedAt(w, s, t);
      assert CachedAt(w, s', t);
    }
    if s.tag.Some? {
      var taken: nat, t: nat :| LabelledAt(w, s, taken, t);
      assert LabelledAt(w, s', taken, t);
    }
  }

  lemma RefreshAgrees(w: Signer, s: State)
    requires Agrees(w, s)
    ensures Agrees(w, Refresh(w, s).0)
    ensures Refresh(w, s).1.Success? ==> LabelledAt(w,
        Refresh(w, s).0.(tag := Some(w.revision(s.calls))), s.calls, s.calls)
  {
    var after := Refresh(w, s).0;
    if w.answers(s.calls) {
      assert CachedAt(w, after, s.calls);
    } else {
      LaterAgrees(w, s, after);
    }
  }

  lemma CheckedListAgrees(w: Signer, s: State)
    requires Agrees(w, s)
    ensures Agrees(w, ListIfChanged(w, s).0)
  {
    var asked := s.(calls := s.calls + 1);
    LaterAgrees(w, s, asked);
    RefreshAgrees(w, asked);
    var (fetched, keys) := Refresh(w, asked);
    if keys.Success? {
      var tagged := fetched.(tag := Some(w.revision(s.calls)));
      assert CachedAt(w, tagged, asked.calls);
      assert LabelledAt(w, tagged, s.calls, asked.calls);
    }
  }

  lemma StepAgrees(w: Signer, s: State, c: Call)
    requires Agrees(w, s)
    ensures Agrees(w, Step(w, s, c))
  {
    match c
    case CallListIfChanged => CheckedListAgrees(w, s);
    case CallMutate => LaterAgrees(w, s, s.(calls := s.calls + 1));
    case _ => RefreshAgrees(w, s);
  }

  lemma {:induction false} RunAgrees(w: Signer, calls: seq<Call>)
    ensures Agrees(w, Run(w, calls))
  {
    if calls != [] {
      RunAgrees(w, calls[..|calls| - 1]);
      StepAgrees(w, Run(w, calls[..|calls| - 1]), calls[|calls| - 1]);
    }
  }

  /** A label that matches the revision `/status` reports vouches for the cache. */
  lemma LabelVouches(w: Signer, s: State, t: nat)
    requires w.Versioned() && Agrees(w, s) && s.calls <= t && s.tag == Some(w.revision(t))
    ensures Whole(w.entries(t)) && s.cache == Collapse(Parsed(w.entries(t)))
  {
    var taken: nat, held: nat :| LabelledAt(w, s, taken, held);
    assert w.revision(taken) <= w.revision(held) <= w.revision(t);
    assert w.entries(held) == w.entries(t);
  }

  /**
   * Cache agreement: after any run, an answer of the revision-checked listing given without a
   * new fetch is the whole inventory as it stood when `/status` answered. An answer that was
   * fetched is the inventory of that later call, and is labelled with the revision read before it.
   */
  lemma CachedAnswerIsCurrent(w: Signer, calls: seq<Call>)
    requires w.Versioned()
    ensures var s := Run(w, calls);
            var (after, keys) := ListIfChanged(w, s);
            keys.Success? ==>
              && w.answers(s.calls) && !w.locked(s.calls)
              && var t := if after.calls == s.calls + 1 then s.calls else s.calls + 1;
              && Whole(w.entries(t))
              && after.cache == Collapse(Parsed(w.entries(t)))
              && keys.value == (if t == s.calls then after.cache else Parsed(w.entries(t)))
              && (after.cache != [] ==> after.tag == Some(w.revision(s.calls)))
  {
    var s := Run(w, calls);
    RunAgrees(w, calls);
    var t := s.calls;
    if s.tag == Some(w.revision(t)) {
      LabelVouches(w, s, t);
    }
  }

  /** When the signer lists no address twice, the cached and the fetched answers are both verbatim. */
  lemma CachedAnswerIsVerbatim(w: Signer, calls: seq<Call>)
    requires w.Versioned()
    requires forall t: nat :: Keyed(Parsed(w.entries(t)))
    ensures var s := Run(w, calls);
            var (after, keys) := ListIfChanged(w, s);
            keys.Success? ==>
              var t := if after.calls == s.calls + 1 then s.calls else s.calls + 1;
              Whole(w.entries(t)) && keys.value == Parsed(w.entries(t))
  {
    CachedAnswerIsCurrent(w, calls);
    var s := Run(w, calls);
    CollapseIsIdentity(Parsed(w.entries(s.calls)));
  }

  /** A lookup says "no such key" only of an inventory it has just fetched whole. */
  lemma LookupAnswers(w: Signer, calls: seq<Call>, address: string)
    ensures var s := Run(w, calls);
            var (after, r) := GetKeyInfo(w, s, address);
            && (r == Success(None) ==>
                && after.calls == s.calls + 1 && Whole(w.entries(s.calls))
                && forall k :: k in Parsed(w.entries(s.calls)) ==> k.address != address)
            && (r.Success? && r.value.Some? ==>
                && r.value.value.address == address
                && exists t: nat :: t < after.calls && r.value.value in Parsed(w.entries(t)))
  {
    var s := Run(w, calls);
    RunAgrees(w, calls);
    RefreshAgrees(w, s);
    var (after, r) := GetKeyInfo(w, s, address);
    CollapseKeepsLast(Parsed(w.entries(s.calls)), address);
    LastForMember(Parsed(w.entries(s.calls)), address);
    if r.Success? && r.value.Some? {
      FindMember(after.cache, address);
      var t: nat :| CachedAt(w, after, t);
      CollapseKeepsLast(Parsed(w.entries(t)), address);
      LastForMember(Parsed(w.entries(t)), address);
      assert t < after.calls && r.value.value in Parsed(w.entries(t));
    }
  }

  /**
   * A refresh that breaks off leaves no label, so the next revision-checked listing fetches
   * again; so does one after an accepted key change, and one while the cache is empty.
   */
  lemma UnlabelledFetchesAgain(w: Signer, s: State, c: Call)
    requires (match c
              case CallMutate => w.answers(s.calls)
              case CallListKeys(refresh) => refresh && w.answers(s.calls)
              case CallGetKeyInfo(a) => Find(s.cache, a).None? && w.answers(s.calls)
              case CallListIfChanged => ListIfChanged(w, s).1 == Failure(Malformed))
    ensures var s' := Step(w, s, c);
            var (after, keys) := ListIfChanged(w, s');
            && s'.tag.None?
            && (keys.Success? ==>
                after.calls == s'.calls + 2 && keys.value == Parsed(w.entries(s'.calls + 1)))
  {
  }

  // ---- The unchecked listing ----

  predicate Complete(keys: seq<Key>, entries: seq<Entry>) {
    forall i :: 0 <= i < |entries| ==>
      entries[i].Some? && Find(keys, entries[i].value.address).Some?
  }

  /**
   * The plain listing trusts whatever is cached: after a refresh that kept at least one key it
   * succeeds without asking, and its answer accounts for the whole reply exactly when every
   * entry of that reply parsed.
   */
  lemma PlainListAfterRefresh(w: Signer, s: State)
    requires w.answers(s.calls) && Parsed(w.entries(s.calls)) != []
    ensures var entries := w.entries(s.calls);
            var after := Refresh(w, s).0;
            var (again, keys) := ListKeys(w, after, false);
            && again == after && keys.Success?
            && (Complete(keys.value, entries) <==> Whole(entries))
            && (Whole(entries) <==> Refresh(w, s).1.Success?)
  {
    var entries := w.entries(s.calls);
    var keys := Parsed(entries);
    var cache := Collapse(keys);
    forall i | 0 <= i < |keys| ensures Find(cache, keys[i].address).Some? {
      CollapseKeepsLast(keys, keys[i].address);
      LastForMember(keys, keys[i].address);
    }
    assert Find(cache, keys[0].address).Some?;
  }

  /** A signer holding two keys whose second entry the client cannot parse. */
  function HalfReadable(): (w: Signer)
    ensures w.Versioned()
  {
    Signer(_ => true, _ => [Some(Key("A", "")), None], _ => 1, _ => false, _ => true)
  }

  /** The broken-off refresh reports an error, and the next plain listing serves its half silently. */
  lemma PlainListCanBePartial()
    ensures var w := HalfReadable();
            && Refresh(w, Start).1 == Failure(Malformed)
            && var (s, keys) := ListKeys(w, Run(w, [CallListKeys(true)]), false);
            keys == Success([Key("A", "")]) && !Complete(keys.value, w.entries(0))
  {
    var w := HalfReadable();
    var entries := w.entries(0);
    var k := Key("A", "");
    assert Parsed(entries[1..]) == [];
    assert Parsed(entries) == [k];
    assert [k][..0] == [];
    assert Collapse([k]) == Put(Collapse([]), k) == [k];
    var calls := [CallListKeys(true)];
    assert calls[..0] == [];
    assert Run(w, calls) == Step(w, Run(w, []), CallListKeys(true));
  }

  // ---- The client object ----

  class Client {
    const signer: Signer
    var calls: nat
    var cache: seq<Key>
    var tag: Option<int>

    ghost function View(): (s: State)
      reads this
    {
      State(calls, cache, tag)
    }

    constructor (signer: Signer)
      ensures this.signer == signer && View() == Start
    {
      this.signer := signer;
      calls, cache, tag := 0, [], None;
    }

    /** Fills the empty cache entry by entry, up to the first that does not parse. */
    method Fill(entries: seq<Entry>) returns (keys: seq<Key>)
      requires cache == []
      modifies this`cache
      ensures keys == Parsed(entries) && cache == Collapse(keys)
    {
      keys := [];
      ghost var parsed := Parsed(entries);
      for i := 0 to |entries|
        invariant i <= |parsed| && keys == parsed[..i] && cache == Collapse(keys)
      {
        if entries[i].None? {
          return;
        }
        var key := entries[i].value;
        assert i < |parsed| && parsed[i] == key;
        CollapseAppend(keys, key);
        assert parsed[..i + 1] == parsed[..i] + [key];
        cache := Put(cache, key);
        keys := keys + [key];
      }
    }

    method FetchKeys() returns (r: Result<seq<Key>, Error>)
      modifies this
      ensures (View(), r) == Refresh(signer, old(View()))
      ensures Fetches(signer, old(View()), View(), r)
    {
      RefreshFetches(signer, View());
      var t := calls;
      calls := calls + 1;
      if !signer.answers(t) {
        return Failure(Unavailable);
      }
      var entries := signer.entries(t);
      cache, tag := [], None;
      var keys := Fill(entries);
      return if |keys| == |entries| then Success(keys) else Failure(Malformed);
    }

    method List(refresh: bool) returns (r: Result<seq<Key>, Error>)
      modifies this
      ensures (View(), r) == ListKeys(signer, old(View()), refresh)
      ensures if !refresh && old(cache) != [] then View() == old(View()) && r == Success(old(cache))
              else Fetches(signer, old(View()), View(), r)
    {
      if !refresh && cache != [] {
        return Success(cache);
      }
      r := FetchKeys();
    }

    method ListIfKeysetChanged() returns (r: Result<seq<Key>, Error>)
      modifies this
      ensures (View(), r) == ListIfChanged(signer, old(View()))
      ensures Checks(signer, old(View()), View(), r)
    {
      ListIfChangedChecks(signer, View());
      var t := calls;
      calls := calls + 1;
      if !signer.answers(t) {
        return Failure(Unavailable);
      }
      if signer.locked(t) {
        return Failure(Locked);
      }
      var revision := signer.revision(t);
      if cache != [] && tag == Some(revision) {
        return Success(cache);
      }
      r := List(true);
      if r.Success? {
        tag := Some(revision);
      }
    }

    method KeyInfo(address: string) returns (r: Result<Option<Key>, Error>)
      modifies this
      ensures (View(), r) == GetKeyInfo(signer, old(View()), address)
      ensures LooksUp(signer, old(View()), address, View(), r)
    {
      GetKeyInfoLooksUp(signer, View(), address);
      if Find(cache, address).None? {
        var keys := List(true);
        if keys.Failure? {
          return Failure(keys.error);
        }
      }
      return Success(Find(cache, address));
    }

    method ChangeKeys() returns (r: Result<(), Error>)
      modifies this
      ensures (View(), r) == Mutate(signer, old(View()))
      ensures calls == old(calls) + 1
      ensures r.Success? <==> signer.answers(old(calls)) && signer.names(old(calls))
      ensures if signer.answers(old(calls)) then cache == [] && tag.None? else cache == old(cache) && tag == old(tag)
    {
      var t := calls;
      calls := calls + 1;
      if !signer.answers(t) {
        return Failure(Unavailable);
      }
      cache, tag := [], None;
      return if signer.names(t) then Success(()) else Failure(Malformed);
    }
  }
}
