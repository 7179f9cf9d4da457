/** Encoding the arguments of an ABI method call, reference arguments included. */
module AbiArguments {
  import opened Basics

  const MAX_APP_ARGS := 16
  const TUPLE_THRESHOLD := MAX_APP_ARGS - 2

  datatype Reference = Account(address: string) | Application(id: int) | Asset(asset: int)

  datatype Arrays = Arrays(accounts: seq<string>, apps: seq<int>, assets: seq<int>)

  /** The sender and the called application have the reserved index 0. */
  datatype Call = Call(sender: string, appId: int)

  // ---- Resolving references ------------------------------------------------

  /** Position of the first occurrence. */
  function IndexOf<T(==)>(s: seq<T>, x: T): (i: nat)
    requires x in s
    ensures i < |s| && s[i] == x && x !in s[..i]
  {
    if s[0] == x then 0 else 1 + IndexOf(s[1..], x)
  }

  function Grow<T(==)>(s: seq<T>, x: T): seq<T> {
    if x in s then s else s + [x]
  }

  function ResolveOne(call: Call, arrays: Arrays, ref: Reference): (Arrays, nat) {
    match ref
    case Account(address) =>
      if address == call.sender then (arrays, 0)
      else
        var accounts := Grow(arrays.accounts, address);
        (arrays.(accounts := accounts), IndexOf(accounts, address) + 1)
    case Application(id) =>
      if id == call.appId then (arrays, 0)
      else
        var apps := Grow(arrays.apps, id);
        (arrays.(apps := apps), IndexOf(apps, id) + 1)
    case Asset(id) =>
      var assets := Grow(arrays.assets, id);
      (arrays.(assets := assets), IndexOf(assets, id))
  }

  function ResolveAll(call: Call, arrays: Arrays, refs: seq<Reference>): (r: (Arrays, seq<nat>))
    ensures |r.1| == |refs|
  {
    if refs == [] then (arrays, [])
    else
      var (before, indexes) := ResolveAll(call, arrays, refs[..|refs| - 1]);
      var (after, index) := ResolveOne(call, before, refs[|refs| - 1]);
      (after, indexes + [index])
  }

  /** What the program sees when it looks an index up. */
  function Dereference(call: Call, arrays: Arrays, ref: Reference, index: nat): Option<Reference> {
    match ref
    case Account(_) =>
      if index == 0 then Some(Account(call.sender))
      else if index <= |arrays.accounts| then Some(Account(arrays.accounts[index - 1]))
      else None
    case Application(_) =>
      if index == 0 then Some(Application(call.appId))
      else if index <= |arrays.apps| then Some(Application(arrays.apps[index - 1]))
      else None
    case Asset(_) =>
      if index < |arrays.assets| then Some(Asset(arrays.assets[index])) else None
  }

  predicate Extends(small: Arrays, large: Arrays) {
    small.accounts <= large.accounts && small.apps <= large.apps && small.assets <= large.assets
  }

  /** Everything beyond `old` is new and listed once. */
  ghost predicate GrownFreshly<T>(first: seq<T>, grown: seq<T>) {
    && first <= grown
    && Distinct(grown[|first|..])
    && forall k :: |first| <= k < |grown| ==> grown[k] !in first
  }

  ghost predicate Fresh(initial: Arrays, final: Arrays) {
    && GrownFreshly(initial.accounts, final.accounts)
    && GrownFreshly(initial.apps, final.apps)
    && GrownFreshly(initial.assets, final.assets)
  }

  /** The lists the client passes are grown in place, one reference after another. */
  class ReferenceArrays {
    var accounts: seq<string>
    var apps: seq<int>
    var assets: seq<int>

    ghost function Contents(): Arrays
      reads this
    {
      Arrays(accounts, apps, assets)
    }

    constructor (accounts: seq<string>, apps: seq<int>, assets: seq<int>)
      ensures Contents() == Arrays(accounts, apps, assets)
    {
      this.accounts, this.apps, this.assets := accounts, apps, assets;
    }

    method ResolveOneInPlace(call: Call, ref: Reference) returns (index: nat)
      modifies this
      ensures (Contents(), index) == ResolveOne(call, old(Contents()), ref)
    {
      match ref {
        case Account(address) =>
          if address == call.sender {
            return 0;
          } else if address in accounts {
            return IndexOf(accounts, address) + 1;
          }
          AppendedLast(accounts, address);
          accounts := accounts + [address];
          return |accounts|;
        case Application(id) =>
          if id == call.appId {
            return 0;
          } else if id in apps {
            return IndexOf(apps, id) + 1;
          }
          AppendedLast(apps, id);
          apps := apps + [id];
          return |apps|;
        case Asset(id) =>
          if id in assets {
            return IndexOf(assets, id);
          }
          AppendedLast(assets, id);
          assets := assets + [id];
          return |assets| - 1;
      }
    }

    method Resolve(call: Call, refs: seq<Reference>) returns (resolved: seq<nat>)
      modifies this
      ensures (Contents(), resolved) == ResolveAll(call, old(Contents()), refs)
    {
      resolved := [];
      for i := 0 to |refs|
        invariant (Contents(), resolved) == ResolveAll(call, old(Contents()), refs[..i])
      {
        assert refs[..i + 1][..i] == refs[..i];
        var index := ResolveOneInPlace(call, refs[i]);
        resolved := resolved + [index];
      }
      assert refs[..|refs|] == refs;
    }
  }

  lemma {:induction false} FirstIndex<T>(s: seq<T>, x: T, i: nat)
    requires i < |s| && s[i] == x && x !in s[..i]
    ensures IndexOf(s, x) == i
  {
    if i > 0 {
      assert s[..i][0] == s[0];
      assert s[1..][..i - 1] == s[..i][1..];
      FirstIndex(s[1..], x, i - 1);
    }
  }

  lemma AppendedLast<T>(s: seq<T>, x: T)
    requires x !in s
    ensures IndexOf(s + [x], x) == |s|
  {
    assert (s + [x])[..|s|] == s;
    FirstIndex(s + [x], x, |s|);
  }

  lemma IndexOfStable<T>(small: seq<T>, large: seq<T>, x: T)
    requires small <= large && x in small
    ensures IndexOf(large, x) == IndexOf(small, x)
  {
    var i := IndexOf(small, x);
    assert large[..i] == small[..i];
    FirstIndex(large, x, i);
  }

  lemma GrowFresh<T>(first: seq<T>, grown: seq<T>, x: T)
    requires GrownFreshly(first, grown)
    ensures GrownFreshly(first, Grow(grown, x)) && grown <= Grow(grown, x)
  {
    if x !in grown {
      var all := grown + [x];
      assert all[|first|..] == grown[|first|..] + [x];
      assert forall k :: |first| <= k < |grown| ==> grown[|first|..][k - |first|] == grown[k];
      assert forall y :: y in grown[|first|..] ==> y in grown;
    }
  }

  lemma ResolveOneFresh(call: Call, initial: Arrays, arrays: Arrays, ref: Reference)
    requires Fresh(initial, arrays)
    ensures Fresh(initial, ResolveOne(call, arrays, ref).0) && Extends(arrays, ResolveOne(call, arrays, ref).0)
  {
    match ref
    case Account(a) => GrowFresh(initial.accounts, arrays.accounts, a);
    case Application(a) => GrowFresh(initial.apps, arrays.apps, a);
    case Asset(a) => GrowFresh(initial.assets, arrays.assets, a);
  }

  /** Looking an index up in a longer array finds the same value. */
  lemma DereferenceStable(call: Call, small: Arrays, large: Arrays, ref: Reference, index: nat)
    requires Extends(small, large) && Dereference(call, small, ref, index) == Some(ref)
    ensures Dereference(call, large, ref, index) == Some(ref)
  {
  }

  /** The final arrays extend the initial ones by fresh values, each listed once. */
  lemma {:induction false} ResolveFresh(call: Call, initial: Arrays, refs: seq<Reference>)
    ensures Fresh(initial, ResolveAll(call, initial, refs).0)
  {
    if refs != [] {
      var front := refs[..|refs| - 1];
      ResolveFresh(call, initial, front);
      ResolveOneFresh(call, initial, ResolveAll(call, initial, front).0, refs[|refs| - 1]);
    }
  }

  /** Every index dereferences, in the final arrays, to the reference it was resolved for. */
  lemma {:induction false} ResolveFaithful(call: Call, initial: Arrays, refs: seq<Reference>)
    ensures
      var (final, indexes) := ResolveAll(call, initial, refs);
      AllFaithful(call, final, refs, indexes)
  {
    if refs != [] {
      var front, last := refs[..|refs| - 1], refs[|refs| - 1];
      ResolveFaithful(call, initial, front);
      ResolveFresh(call, initial, front);
      var (before, earlier) := ResolveAll(call, initial, front);
      ResolveOneFresh(call, initial, before, last);
      FaithfulStep(call, before, front, earlier, last);
      assert refs == front + [last];
    }
  }

  ghost predicate AllFaithful(call: Call, arrays: Arrays, refs: seq<Reference>, indexes: seq<nat>) {
    |indexes| == |refs| && forall k :: 0 <= k < |refs| ==> Dereference(call, arrays, refs[k], indexes[k]) == Some(refs[k])
  }

  lemma FaithfulStep(call: Call, before: Arrays, refs: seq<Reference>, indexes: seq<nat>, ref: Reference)
    requires AllFaithful(call, before, refs, indexes) && Extends(before, ResolveOne(call, before, ref).0)
    ensures
      var (after, index) := ResolveOne(call, before, ref);
      AllFaithful(call, after, refs + [ref], indexes + [index])
  {
    var (after, index) := ResolveOne(call, before, ref);
    ResolvedNow(call, before, ref);
    forall k | 0 <= k < |refs| ensures Dereference(call, after, refs[k], indexes[k]) == Some(refs[k]) {
      DereferenceStable(call, before, after, refs[k], indexes[k]);
    }
  }

  lemma ResolvedAt(call: Call, initial: Arrays, refs: seq<Reference>, m: nat)
    requires m < |refs|
    ensures
      var (final, indexes) := ResolveAll(call, initial, refs);
      Dereference(call, final, refs[m], indexes[m]) == Some(refs[m])
  {
    ResolveFaithful(call, initial, refs);
  }

  lemma ResolvedNow(call: Call, arrays: Arrays, ref: Reference)
    ensures
      var (after, index) := ResolveOne(call, arrays, ref);
      Dereference(call, after, ref, index) == Some(ref)
  {
  }

  /** Nothing is added that no reference asked for. */
  lemma {:induction false} NothingSpurious(call: Call, initial: Arrays, refs: seq<Reference>)
    ensures
      var final := ResolveAll(call, initial, refs).0;
      && (forall a :: a in final.accounts ==> a in initial.accounts || (Account(a) in refs && a != call.sender))
      && (forall a :: a in final.apps ==> a in initial.apps || (Application(a) in refs && a != call.appId))
      && (forall a :: a in final.assets ==> a in initial.assets || Asset(a) in refs)
  {
    if refs != [] {
      NothingSpurious(call, initial, refs[..|refs| - 1]);
      assert refs == refs[..|refs| - 1] + [refs[|refs| - 1]];
    }
  }

  /** A reference is settled in arrays that already hold its value. */
  predicate Settled(call: Call, arrays: Arrays, ref: Reference) {
    match ref
    case Account(a) => a == call.sender || a in arrays.accounts
    case Application(a) => a == call.appId || a in arrays.apps
    case Asset(a) => a in arrays.assets
  }

  /** Resolving one settled reference changes nothing, and gives the same index in any extension. */
  lemma SettledResolve(call: Call, small: Arrays, large: Arrays, ref: Reference)
    requires Extends(small, large) && Settled(call, small, ref)
    ensures ResolveOne(call, large, ref) == (large, ResolveOne(call, small, ref).1)
    ensures ResolveOne(call, small, ref).0 == small
  {
    match ref
    case Account(a) => if a != call.sender { IndexOfStable(small.accounts, large.accounts, a); }
    case Application(a) => if a != call.appId { IndexOfStable(small.apps, large.apps, a); }
    case Asset(a) => IndexOfStable(small.assets, large.assets, a);
  }

  /** Resolving once more against any arrays that extend the final ones gives the same indexes and adds nothing. */
  lemma {:induction false} ResolveAgain(call: Call, initial: Arrays, refs: seq<Reference>, larger: Arrays)
    requires Extends(ResolveAll(call, initial, refs).0, larger)
    ensures ResolveAll(call, larger, refs) == (larger, ResolveAll(call, initial, refs).1)
  {
    if refs != [] {
      var front, last := refs[..|refs| - 1], refs[|refs| - 1];
      var (before, earlier) := ResolveAll(call, initial, front);
      var (after, index) := ResolveOne(call, before, last);
      ResolveOneFresh(call, before, before, last);
      ResolveAgain(call, initial, front, larger);
      OnceResolved(call, before, last);
      SettledResolve(call, after, larger, last);
    }
  }

  lemma OnceResolved(call: Call, arrays: Arrays, ref: Reference)
    ensures Settled(call, ResolveOne(call, arrays, ref).0, ref)
    ensures ResolveOne(call, ResolveOne(call, arrays, ref).0, ref) == ResolveOne(call, arrays, ref)
  {
  }

  // ---- Encoding the whole call ---------------------------------------------

  /** Basic ABI types are named; a tuple type lists its members. */
  datatype AbiType = Basic(name: string) | Tuple(members: seq<AbiType>)

  datatype Value = Plain(data: Bytes) | Index(index: nat) | Packed(values: seq<Value>)

  /** The ABI library: encoding a value that fits its type, and reading it back. */
  datatype AbiCodec = AbiCodec(encode: (AbiType, Value) -> Option<Bytes>, decode: (AbiType, Bytes) -> Option<Value>)
  {
    ghost predicate Lawful() {
      forall t, v :: encode(t, v).Some? ==> decode(t, encode(t, v).value) == Some(v)
    }
  }

  const UINT8 := Basic("uint8")

  /** A declared parameter with its argument: transactions are refused, references become indexes. */
  datatype Argument = Value(abiType: AbiType, value: Value) | Ref(ref: Reference) | TransactionArg

  function References(args: seq<Argument>): seq<Reference> {
    if args == [] then []
    else References(args[..|args| - 1]) + (if args[|args| - 1].Ref? then [args[|args| - 1].ref] else [])
  }

  /** Types and values once references are replaced by their indexes. */
  function BasicTypes(args: seq<Argument>): (r: seq<AbiType>)
    requires TransactionArg !in args
    ensures |r| == |args|
  {
    if args == [] then []
    else
      var last := args[|args| - 1];
      BasicTypes(args[..|args| - 1]) + [if last.Ref? then UINT8 else last.abiType]
  }

  function BasicValues(args: seq<Argument>, indexes: seq<nat>): (r: seq<Value>)
    requires TransactionArg !in args && |indexes| == |References(args)|
    ensures |r| == |args|
  {
    if args == [] then []
    else
      var front, last := args[..|args| - 1], args[|args| - 1];
      if last.Ref? then BasicValues(front, indexes[..|indexes| - 1]) + [Index(indexes[|indexes| - 1])]
      else BasicValues(front, indexes) + [last.value]
  }

  function EncodeEach(abi: AbiCodec, types: seq<AbiType>, values: seq<Value>): (r: Option<seq<Bytes>>)
    requires |types| == |values|
    ensures r.Some? ==> |r.value| == |types|
  {
    if types == [] then Some([])
    else
      match (EncodeEach(abi, types[..|types| - 1], values[..|values| - 1]), abi.encode(types[|types| - 1], values[|values| - 1]))
      case (Some(front), Some(last)) => Some(front + [last])
      case _ => None
  }

  /** From sixteen arguments on, the fifteenth and all later ones travel as one tuple. */
  function PackedTypes(types: seq<AbiType>): seq<AbiType> {
    if |types| > MAX_APP_ARGS - 1 then types[..TUPLE_THRESHOLD] + [Tuple(types[TUPLE_THRESHOLD..])] else types
  }

  function PackedValues(values: seq<Value>): seq<Value> {
    if |values| > MAX_APP_ARGS - 1 then values[..TUPLE_THRESHOLD] + [Packed(values[TUPLE_THRESHOLD..])] else values
  }

  /** The application arguments that stand for `args`, given the indexes of the references. */
  function AppArguments(abi: AbiCodec, selector: Bytes, args: seq<Argument>, indexes: seq<nat>): Option<seq<Bytes>>
    requires TransactionArg !in args && |indexes| == |References(args)|
  {
    match EncodeEach(abi, PackedTypes(BasicTypes(args)), PackedValues(BasicValues(args, indexes)))
    case None => None
    case Some(encoded) => Some([selector] + encoded)
  }

  /** The call, unless it has a transaction argument, an index over 255 or a value that does not encode. */
  ghost function Encoded(abi: AbiCodec, selector: Bytes, call: Call, args: seq<Argument>, initial: Arrays): Option<(seq<Bytes>, Arrays)> {
    var (final, indexes) := ResolveAll(call, initial, References(args));
    if TransactionArg in args || exists k :: 0 <= k < |indexes| && indexes[k] > 255 then None
    else
      match AppArguments(abi, selector, args, indexes)
      case None => None
      case Some(appArgs) => Some((appArgs, final))
  }

  /**
   The layout of a call: the selector, then each argument under its own type; with more than
   fifteen of them the fifteenth and all later ones as one tuple.
   */
  ghost predicate Laid(abi: AbiCodec, selector: Bytes, types: seq<AbiType>, values: seq<Value>, appArgs: seq<Bytes>)
    requires |types| == |values|
  {
    && appArgs != [] && appArgs[0] == selector
    && if |types| <= 15 then
         && |appArgs| == |types| + 1
         && forall k :: 0 <= k < |types| ==> abi.encode(types[k], values[k]) == Some(appArgs[k + 1])
       else
         && |appArgs| == 16
         && (forall k :: 0 <= k < 14 ==> abi.encode(types[k], values[k]) == Some(appArgs[k + 1]))
         && abi.encode(Tuple(types[14..]), Packed(values[14..])) == Some(appArgs[15])
  }

  lemma {:induction false} EncodeEachExactly(abi: AbiCodec, types: seq<AbiType>, values: seq<Value>)
    requires |types| == |values|
    ensures EncodeEach(abi, types, values).Some? <==>
              forall k :: 0 <= k < |types| ==> abi.encode(types[k], values[k]).Some?
    ensures EncodeEach(abi, types, values).Some? ==>
              forall k :: 0 <= k < |types| ==> abi.encode(types[k], values[k]) == Some(EncodeEach(abi, types, values).value[k])
  {
    if types != [] {
      EncodeEachExactly(abi, types[..|types| - 1], values[..|values| - 1]);
    }
  }

  lemma LaidExactly(abi: AbiCodec, selector: Bytes, types: seq<AbiType>, values: seq<Value>)
    requires |types| == |values|
    ensures
      var encoded := EncodeEach(abi, PackedTypes(types), PackedValues(values));
      && (encoded.Some? <==> exists appArgs :: Laid(abi, selector, types, values, appArgs))
      && (encoded.Some? ==> Laid(abi, selector, types, values, [selector] + encoded.value))
  {
    var packedTypes, packedValues := PackedTypes(types), PackedValues(values);
    var encoded := EncodeEach(abi, packedTypes, packedValues);
    EncodeEachExactly(abi, packedTypes, packedValues);
    if encoded.Some? {
      var appArgs := [selector] + encoded.value;
      assert forall k :: 0 <= k < |packedTypes| ==> appArgs[k + 1] == encoded.value[k];
      assert Laid(abi, selector, types, values, appArgs);
    }
    if appArgs :| Laid(abi, selector, types, values, appArgs) {
      forall k | 0 <= k < |packedTypes| ensures abi.encode(packedTypes[k], packedValues[k]).Some? {
        assert abi.encode(packedTypes[k], packedValues[k]) == Some(appArgs[k + 1]);
      }
    }
  }

  /** Each argument is encoded under the type it declares, a reference as a byte. */
  lemma {:induction false} BasicTypeAt(args: seq<Argument>, k: nat)
    requires TransactionArg !in args && k < |args|
    ensures BasicTypes(args)[k] == match args[k] { case Value(abiType, _) => abiType case _ => Basic("uint8") }
  {
    if k < |args| - 1 {
      BasicTypeAt(args[..|args| - 1], k);
    }
  }

  /** What the call amounts to, without its encoding: when it encodes, and into what. */
  ghost predicate EncodesAs(
    abi: AbiCodec, selector: Bytes, call: Call, args: seq<Argument>, initial: Arrays, r: Option<(seq<Bytes>, Arrays)>)
  {
    var (final, indexes) := ResolveAll(call, initial, References(args));
    && (r.Some? <==>
          && TransactionArg !in args
          && (forall k :: 0 <= k < |indexes| ==> indexes[k] <= 255)
          && exists appArgs :: Laid(abi, selector, BasicTypes(args), BasicValues(args, indexes), appArgs))
    && (r.Some? ==>
          && r.value.1 == final
          && Laid(abi, selector, BasicTypes(args), BasicValues(args, indexes), r.value.0))
  }

  lemma EncodedExactly(abi: AbiCodec, selector: Bytes, call: Call, args: seq<Argument>, initial: Arrays)
    ensures EncodesAs(abi, selector, call, args, initial, Encoded(abi, selector, call, args, initial))
  {
    var (final, indexes) := ResolveAll(call, initial, References(args));
    if TransactionArg !in args {
      LaidExactly(abi, selector, BasicTypes(args), BasicValues(args, indexes));
    }
  }

  method DeclaredArguments(args: seq<Argument>) returns (r: Option<(seq<AbiType>, seq<Reference>)>)
    ensures r.Some? <==> TransactionArg !in args
    ensures r.Some? ==> r.value == (BasicTypes(args), References(args))
  {
    var types: seq<AbiType>, refs: seq<Reference> := [], [];
    for i := 0 to |args|
      invariant TransactionArg !in args[..i]
      invariant types == BasicTypes(args[..i]) && refs == References(args[..i])
    {
      assert args[..i + 1] == args[..i] + [args[i]];
      assert args[..i + 1][..i] == args[..i];
      match args[i] {
        case TransactionArg => return None;
        case Ref(ref) => types, refs := types + [UINT8], refs + [ref];
        case Value(abiType, _) => types := types + [abiType];
      }
    }
    assert args[..|args|] == args;
    return Some((types, refs));
  }

  method FitBytes(indexes: seq<nat>) returns (ok: bool)
    ensures ok <==> forall k :: 0 <= k < |indexes| ==> indexes[k] <= 255
  {
    for k := 0 to |indexes|
      invariant forall j :: 0 <= j < k ==> indexes[j] <= 255
    {
      if indexes[k] > 255 {
        return false;
      }
    }
    return true;
  }

  method EncodeArguments(abi: AbiCodec, selector: Bytes, call: Call, args: seq<Argument>, initial: Arrays)
    returns (r: Option<(seq<Bytes>, Arrays)>)
    ensures r == Encoded(abi, selector, call, args, initial)
    ensures EncodesAs(abi, selector, call, args, initial, r)
  {
    EncodedExactly(abi, selector, call, args, initial);
    var declared := DeclaredArguments(args);
    if declared.None? {
      return None;
    }
    var (types, refs) := declared.value;
    var arrays := new ReferenceArrays(initial.accounts, initial.apps, initial.assets);
    var indexes := arrays.Resolve(call, refs);
    var fit := FitBytes(indexes);
    if !fit {
      return None;
    }
    var packedTypes, packedValues := PackedTypes(types), PackedValues(BasicValues(args, indexes));
    var encoded := EncodeList(abi, packedTypes, packedValues);
    if encoded.None? {
      return None;
    }
    r := Some(([selector] + encoded.value, Arrays(arrays.accounts, arrays.apps, arrays.assets)));
  }

  method EncodeList(abi: AbiCodec, types: seq<AbiType>, values: seq<Value>) returns (r: Option<seq<Bytes>>)
    requires |types| == |values|
    ensures r == EncodeEach(abi, types, values)
  {
    var encoded: seq<Bytes> := [];
    for i := 0 to |types|
      invariant Some(encoded) == EncodeEach(abi, types[..i], values[..i])
    {
      assert types[..i + 1][..i] == types[..i] && values[..i + 1][..i] == values[..i];
      var one := abi.encode(types[i], values[i]);
      if one.None? {
        UnencodablePrefix(abi, types, values, i + 1);
        return None;
      }
      encoded := encoded + [one.value];
    }
    assert types[..|types|] == types && values[..|values|] == values;
    return Some(encoded);
  }

  lemma {:induction false} UnencodablePrefix(abi: AbiCodec, types: seq<AbiType>, values: seq<Value>, n: nat)
    requires |types| == |values| && n <= |types| && EncodeEach(abi, types[..n], values[..n]).None?
    ensures EncodeEach(abi, types, values).None?
  {
    if n < |types| {
      var m := |types| - 1;
      assert types[..m][..n] == types[..n] && values[..m][..n] == values[..n];
      UnencodablePrefix(abi, types[..m], values[..m], n);
    } else {
      assert types[..n] == types && values[..n] == values;
    }
  }

  // ---- What the program reads back -----------------------------------------

  /** Decodes the application arguments of a method with `types`, unpacking the tail tuple. */
  function ReadBack(abi: AbiCodec, types: seq<AbiType>, appArgs: seq<Bytes>): Option<seq<Value>> {
    var packed := PackedTypes(types);
    if |appArgs| != |packed| + 1 then None
    else
      match DecodeEach(abi, packed, appArgs[1..])
      case None => None
      case Some(values) =>
        if |types| <= MAX_APP_ARGS - 1 then Some(values)
        else
          match values[TUPLE_THRESHOLD]
          case Packed(tail) => Some(values[..TUPLE_THRESHOLD] + tail)
          case _ => None
  }

  function DecodeEach(abi: AbiCodec, types: seq<AbiType>, data: seq<Bytes>): (r: Option<seq<Value>>)
    requires |types| == |data|
    ensures r.Some? ==> |r.value| == |types|
  {
    if types == [] then Some([])
    else
      match (DecodeEach(abi, types[..|types| - 1], data[..|data| - 1]), abi.decode(types[|types| - 1], data[|data| - 1]))
      case (Some(front), Some(last)) => Some(front + [last])
      case _ => None
  }

  lemma {:induction false} DecodeEachEncoded(abi: AbiCodec, types: seq<AbiType>, values: seq<Value>)
    requires abi.Lawful() && |types| == |values| && EncodeEach(abi, types, values).Some?
    ensures DecodeEach(abi, types, EncodeEach(abi, types, values).value) == Some(values)
  {
    if types != [] {
      var n := |types| - 1;
      DecodeEachEncoded(abi, types[..n], values[..n]);
      var data := EncodeEach(abi, types, values).value;
      assert data[..n] == EncodeEach(abi, types[..n], values[..n]).value;
      assert values == values[..n] + [values[n]];
    }
  }

  /** For any number of arguments, at most sixteen application arguments result and reading them back recovers every one. */
  lemma PackingFaithful(abi: AbiCodec, selector: Bytes, types: seq<AbiType>, values: seq<Value>)
    requires abi.Lawful() && |types| == |values|
    requires EncodeEach(abi, PackedTypes(types), PackedValues(values)).Some?
    ensures
      var appArgs := [selector] + EncodeEach(abi, PackedTypes(types), PackedValues(values)).value;
      && |appArgs| <= MAX_APP_ARGS
      && ReadBack(abi, types, appArgs) == Some(values)
  {
    var encoded := EncodeEach(abi, PackedTypes(types), PackedValues(values)).value;
    assert ([selector] + encoded)[1..] == encoded;
    DecodeEachEncoded(abi, PackedTypes(types), PackedValues(values));
    if |values| > MAX_APP_ARGS - 1 {
      assert values == values[..TUPLE_THRESHOLD] + values[TUPLE_THRESHOLD..];
    }
  }

  /** How many references stand among the first `k` arguments. */
  function RefsBefore(args: seq<Argument>, k: nat): nat
    requires k <= |args|
  {
    |References(args[..k])|
  }

  lemma {:induction false} BasicValueAt(args: seq<Argument>, indexes: seq<nat>, k: nat)
    requires TransactionArg !in args && |indexes| == |References(args)| && k < |args|
    ensures RefsBefore(args, k) <= |indexes|
    ensures args[k].Ref? ==> RefsBefore(args, k) < |indexes| && References(args)[RefsBefore(args, k)] == args[k].ref
    ensures BasicValues(args, indexes)[k] == if args[k].Ref? then Index(indexes[RefsBefore(args, k)]) else args[k].value
  {
    var n := |args| - 1;
    var front := args[..n];
    if k < n {
      assert front[..k] == args[..k];
      BasicValueAt(front, if args[n].Ref? then indexes[..|indexes| - 1] else indexes, k);
    }
  }

  /** A call that encodes at all fits the argument limit and reads back to the values it was made of. */
  lemma CallReadsBack(abi: AbiCodec, selector: Bytes, args: seq<Argument>, indexes: seq<nat>)
    requires abi.Lawful() && TransactionArg !in args && |indexes| == |References(args)|
    requires AppArguments(abi, selector, args, indexes).Some?
    ensures
      var appArgs := AppArguments(abi, selector, args, indexes).value;
      |appArgs| <= MAX_APP_ARGS && ReadBack(abi, BasicTypes(args), appArgs) == Some(BasicValues(args, indexes))
  {
    PackingFaithful(abi, selector, BasicTypes(args), BasicValues(args, indexes));
  }

  /** Argument k arrives in position k: a plain one as it was, a reference as an index for the value given. */
  lemma ArgumentArrives(call: Call, args: seq<Argument>, initial: Arrays, k: nat)
    requires TransactionArg !in args && k < |args|
    ensures
      var (final, indexes) := ResolveAll(call, initial, References(args));
      var arrived := BasicValues(args, indexes)[k];
      match args[k]
      case Value(_, value) => arrived == value
      case Ref(ref) => arrived.Index? && Dereference(call, final, ref, arrived.index) == Some(ref)
      case TransactionArg => false
  {
    var refs := References(args);
    var (final, indexes) := ResolveAll(call, initial, refs);
    BasicValueAt(args, indexes, k);
    if args[k].Ref? {
      ResolvedAt(call, initial, refs, RefsBefore(args, k));
    }
    assert args[k] in args;
  }

  /** What position k of the call holds once the callee has read it. */
  predicate ArgumentAt(call: Call, arrays: Arrays, arg: Argument, v: Value) {
    match arg
    case Value(_, value) => v == value
    case Ref(ref) => v.Index? && v.index <= 255 && Dereference(call, arrays, ref, v.index) == Some(ref)
    case TransactionArg => false
  }

  /** The callee reads, from at most sixteen application arguments, every argument in its position. */
  ghost predicate Arrives(abi: AbiCodec, call: Call, args: seq<Argument>, appArgs: seq<Bytes>, arrays: Arrays) {
    && TransactionArg !in args
    && |appArgs| <= MAX_APP_ARGS
    && var read := ReadBack(abi, BasicTypes(args), appArgs);
    && read.Some? && |read.value| == |args|
    && forall k :: 0 <= k < |args| ==> ArgumentAt(call, arrays, args[k], read.value[k])
  }

  /** A call that encodes arrives whole, references included, in the arrays that go with it. */
  lemma EncodedCallArrives(abi: AbiCodec, selector: Bytes, call: Call, args: seq<Argument>, initial: Arrays)
    requires abi.Lawful() && Encoded(abi, selector, call, args, initial).Some?
    ensures
      var (appArgs, final) := Encoded(abi, selector, call, args, initial).value;
      Fresh(initial, final) && Arrives(abi, call, args, appArgs, final)
  {
    var (final, indexes) := ResolveAll(call, initial, References(args));
    ResolveFresh(call, initial, References(args));
    CallReadsBack(abi, selector, args, indexes);
    forall k | 0 <= k < |args| ensures ArgumentAt(call, final, args[k], BasicValues(args, indexes)[k]) {
      ArgumentArrives(call, args, initial, k);
      BasicValueAt(args, indexes, k);
    }
  }
}
