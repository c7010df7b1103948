/** What the interface macros generate: the list of functions of an interface, a calling stub for
    each, and a dispatcher over all of them. */
module Builder {
  import opened Outcomes
  import opened Wire
  import opened RetResults
  import opened Messages

  const CONNECT: i32 := 2147483647
  const DISCONNECT: i32 := 2147483646
  const CLOSED: i32 := 2147483645

  // ----- an interface as parsed -----

  /** The argument of a `tag(..)` attribute. */
  datatype TagArg = IntLit(value: nat) | OtherLit | Word(segments: seq<string>) | OtherMeta

  datatype GenericArg = Tuple(size: nat) | OtherArg

  /** A path segment, with its angle-bracketed arguments if it has any. */
  datatype Segment = Segment(ident: string, angle: Option<seq<GenericArg>>)

  datatype ReturnType = Default | PathType(segments: seq<Segment>) | OtherType

  datatype Input<Ty> = Receiver | Named(name: string, ty: Ty) | Pattern(ofType: Ty)

  datatype TraitItem<Ty> =
    | Method(attr: Option<TagArg>, isAsync: bool, name: string, inputs: seq<Input<Ty>>, output: ReturnType)
    | OtherItem

  datatype FuncInfo<Ty> = FuncInfo(tag: i32, tt: byte, name: string, inputNames: seq<string>, argTypes: seq<Ty>)

  /** Macro expansion panics on a malformed tag. */
  function HaveTag(attr: Option<TagArg>): Result<Option<i32>> {
    match attr
    case None => Ok(None)
    case Some(IntLit(v)) => if v < 0x8000_0000 then Ok(Some(v)) else Err(Panic)
    case Some(Word(w)) =>
      if w == ["connect"] then Ok(Some(CONNECT))
      else if w == ["disconnect"] then Ok(Some(DISCONNECT))
      else if w == ["closed"] then Ok(Some(CLOSED))
      else Err(Panic)
    case Some(_) => Err(Panic)
  }

  /** The first `Result<..>` in the return type decides: 1 for unit, 2 for a value. */
  function ResultTt(segments: seq<Segment>): (r: Result<byte>)
    ensures r.Ok? ==> r.value == 1 || r.value == 2
  {
    if segments == [] then Err(Panic)
    else if segments[0].ident != "Result" then ResultTt(segments[1..])
    else match segments[0].angle
      case Some(args) => if |args| != 1 then Err(Panic) else Ok(if args[0] == Tuple(0) then 1 else 2)
      case None => Err(Panic)
  }

  function GetFunctionTt(output: ReturnType): (r: Result<byte>)
    ensures r.Ok? ==> r.value < 3 && (r.value == 0 <==> output == Default)
  {
    match output
    case Default => Ok(0)
    case PathType(segments) => ResultTt(segments)
    case OtherType => Err(Panic)
  }

  function NamedInputs<Ty>(inputs: seq<Input<Ty>>): (r: Result<(seq<string>, seq<Ty>)>)
    ensures r.Ok? ==> |r.value.0| == |r.value.1|
  {
    if inputs == [] then Ok(([], [])) else
    match inputs[0]
    case Receiver => NamedInputs(inputs[1..])
    case Pattern(_) => Err(Panic)
    case Named(name, ty) => PrependPair([name], [ty], NamedInputs(inputs[1..]))
  }

  function FuncOf<Ty>(item: TraitItem<Ty>): (r: Result<Option<FuncInfo<Ty>>>)
    ensures r.Ok? && r.value.Some? ==> r.value.value.tt < 3 && |r.value.value.inputNames| == |r.value.value.argTypes|
  {
    if item.OtherItem? then Ok(None) else
    var tag :- HaveTag(item.attr);
    if tag.None? then Ok(None)
    else if !item.isAsync then Err(Panic) else
    var (names, types) :- NamedInputs(item.inputs);
    var tt :- GetFunctionTt(item.output);
    Ok(Some(FuncInfo(tag.value, tt, item.name, names, types)))
  }

  function FuncsOf<Ty>(items: seq<TraitItem<Ty>>): (r: Result<seq<FuncInfo<Ty>>>)
    ensures r.Ok? ==> |r.value| <= |items|
    ensures r.Ok? ==> forall i :: 0 <= i < |r.value| ==>
      r.value[i].tt < 3 && |r.value[i].inputNames| == |r.value[i].argTypes|
  {
    if items == [] then Ok([]) else
    var f :- FuncOf(items[0]);
    Prepend(if f.Some? then [f.value] else [], FuncsOf(items[1..]))
  }

  function Prepend<T>(first: seq<T>, r: Result<seq<T>>): Result<seq<T>> {
    match r
    case Ok(rest) => Ok(first + rest)
    case Err(e) => Err(e)
  }

  lemma PrependLaws<T>(a: seq<T>, b: seq<T>, r: Result<seq<T>>)
    ensures Prepend([], r) == r
    ensures Prepend(a, Prepend(b, r)) == Prepend(a + b, r)
    ensures Prepend(a, Ok([])) == Ok(a)
  {
    if r.Ok? {
      assert [] + r.value == r.value && a + (b + r.value) == (a + b) + r.value;
    }
    assert a + [] == a;
  }

  function PrependPair<T, U>(ts: seq<T>, us: seq<U>, r: Result<(seq<T>, seq<U>)>): Result<(seq<T>, seq<U>)> {
    match r
    case Ok((ts', us')) => Ok((ts + ts', us + us'))
    case Err(e) => Err(e)
  }

  lemma PrependPairLaws<T, U>(ts: seq<T>, us: seq<U>, t: T, u: U, r: Result<(seq<T>, seq<U>)>)
    ensures PrependPair(ts, us, PrependPair([t], [u], r)) == PrependPair(ts + [t], us + [u], r)
  {
    if r.Ok? {
      assert ts + ([t] + r.value.0) == (ts + [t]) + r.value.0;
      assert us + ([u] + r.value.1) == (us + [u]) + r.value.1;
    }
  }

  lemma PrependNothing<T, U>(r: Result<(seq<T>, seq<U>)>)
    ensures PrependPair([], [], r) == r
  {
    if r.Ok? {
      assert [] + r.value.0 == r.value.0 && [] + r.value.1 == r.value.1;
    }
  }

  method ReadInputs<Ty>(inputs: seq<Input<Ty>>) returns (r: Result<(seq<string>, seq<Ty>)>)
    ensures r == NamedInputs(inputs)
  {
    var names: seq<string>, types: seq<Ty> := [], [];
    assert inputs[0..] == inputs;
    PrependNothing(NamedInputs(inputs));
    for i := 0 to |inputs|
      invariant NamedInputs(inputs) == PrependPair(names, types, NamedInputs(inputs[i..]))
    {
      assert inputs[i..][0] == inputs[i] && inputs[i..][1..] == inputs[i + 1..];
      match inputs[i]
      case Receiver =>
      case Pattern(_) => return Err(Panic);
      case Named(name, ty) =>
        PrependPairLaws(names, types, name, ty, NamedInputs(inputs[i + 1..]));
        names, types := names + [name], types + [ty];
    }
    assert inputs[|inputs|..] == [];
    assert names + [] == names && types + [] == types;
    r := Ok((names, types));
  }

  /** `get_funcs_info`: one entry per tagged method, in declaration order. */
  method GetFuncsInfo<Ty>(items: seq<TraitItem<Ty>>) returns (r: Result<seq<FuncInfo<Ty>>>)
    ensures r == FuncsOf(items)
  {
    hide HaveTag, NamedInputs, GetFunctionTt;
    var funcs: seq<FuncInfo<Ty>> := [];
    assert items[0..] == items;
    PrependLaws(funcs, [], FuncsOf(items));
    for i := 0 to |items|
      invariant FuncsOf(items) == Prepend(funcs, FuncsOf(items[i..]))
    {
      assert items[i..][0] == items[i] && items[i..][1..] == items[i + 1..];
      PrependLaws(funcs, [], FuncsOf(items[i + 1..]));
      if items[i].Method? {
        var tag :- HaveTag(items[i].attr);
        if tag.Some? {
          if !items[i].isAsync {
            return Err(Panic);
          }
          var inputs :- ReadInputs(items[i].inputs);
          var tt :- GetFunctionTt(items[i].output);
          var f := FuncInfo(tag.value, tt, items[i].name, inputs.0, inputs.1);
          PrependLaws(funcs, [f], FuncsOf(items[i + 1..]));
          funcs := funcs + [f];
        }
      }
    }
    assert items[|items|..] == [];
    PrependLaws(funcs, [], Ok([]));
    r := Ok(funcs);
  }

  /** What the macros accept: an untagged method may be anything; a tagged one must be async, with a
      known tag, plainly named parameters and no return type or one that holds a one-argument
      `Result`. */
  ghost predicate WellFormed<Ty>(item: TraitItem<Ty>) {
    item.Method? && item.attr.Some? ==>
      && (item.attr.value.IntLit? ==> item.attr.value.value < 0x8000_0000)
      && (item.attr.value.IntLit? || (item.attr.value.Word? &&
            item.attr.value.segments in {["connect"], ["disconnect"], ["closed"]}))
      && item.isAsync
      && (forall i :: 0 <= i < |item.inputs| ==> !item.inputs[i].Pattern?)
      && (item.output.Default? || (item.output.PathType? && ReturnsResult(item.output.segments)))
  }

  /** The first `Result` of a return type, with its one argument. */
  predicate FirstResult(segments: seq<Segment>, k: nat, arg: GenericArg) {
    && k < |segments|
    && segments[k].ident == "Result" && segments[k].angle == Some([arg])
    && forall j :: 0 <= j < k ==> segments[j].ident != "Result"
  }

  ghost predicate ReturnsResult(segments: seq<Segment>) {
    exists k: nat, arg :: FirstResult(segments, k, arg)
  }

  lemma {:induction false} ResultTtExactly(segments: seq<Segment>)
    ensures ResultTt(segments).Ok? <==> ReturnsResult(segments)
    ensures forall k: nat, arg :: FirstResult(segments, k, arg) ==>
      ResultTt(segments) == Ok(if arg == Tuple(0) then 1 else 2)
  {
    if segments != [] && segments[0].ident != "Result" {
      var rest := segments[1..];
      ResultTtExactly(rest);
      forall k: nat, arg | FirstResult(segments, k, arg) ensures FirstResult(rest, k - 1, arg) {
        assert forall j :: 0 <= j < k - 1 ==> rest[j] == segments[j + 1];
      }
      if k: nat, arg :| FirstResult(rest, k, arg) {
        assert forall j :: 0 < j < k + 1 ==> segments[j] == rest[j - 1];
        assert FirstResult(segments, k + 1, arg);
      }
    } else if segments != [] {
      if ResultTt(segments).Ok? {
        assert segments[0].angle.value == [segments[0].angle.value[0]];
        assert FirstResult(segments, 0, segments[0].angle.value[0]);
      }
    }
  }

  /** The parameters but the receiver, in order. */
  function Params<Ty>(inputs: seq<Input<Ty>>): seq<Input<Ty>> {
    if inputs == [] then []
    else (if inputs[0].Named? then [inputs[0]] else []) + Params(inputs[1..])
  }

  ghost predicate Lists<Ty>(names: seq<string>, types: seq<Ty>, params: seq<Input<Ty>>) {
    |names| == |types| == |params| && forall i :: 0 <= i < |params| ==> params[i] == Named(names[i], types[i])
  }

  lemma {:induction false} NamedInputsExactly<Ty>(inputs: seq<Input<Ty>>)
    ensures NamedInputs(inputs).Ok? <==> forall i :: 0 <= i < |inputs| ==> !inputs[i].Pattern?
    ensures NamedInputs(inputs).Ok? ==> Lists(NamedInputs(inputs).value.0, NamedInputs(inputs).value.1, Params(inputs))
  {
    if inputs != [] {
      NamedInputsExactly(inputs[1..]);
      assert forall i :: 0 < i < |inputs| ==> inputs[i] == inputs[1..][i - 1];
    }
  }

  predicate TagMeans(attr: TagArg, tag: i32) {
    match attr
    case IntLit(v) => tag == v
    case Word(w) =>
      || (w == ["connect"] && tag == CONNECT)
      || (w == ["disconnect"] && tag == DISCONNECT)
      || (w == ["closed"] && tag == CLOSED)
    case _ => false
  }

  /** The entry a tagged method is to get: its name, the tag it says, call type 0, 1 or 2 for no return
      type, a `Result` of unit and a `Result` of anything else, and its parameters in order. */
  ghost predicate Describes<Ty>(f: FuncInfo<Ty>, item: TraitItem<Ty>) {
    && item.Method? && item.attr.Some?
    && f.name == item.name
    && TagMeans(item.attr.value, f.tag)
    && Lists(f.inputNames, f.argTypes, Params(item.inputs))
    && match item.output
       case Default => f.tt == 0
       case PathType(segments) =>
         forall k: nat, arg :: FirstResult(segments, k, arg) ==> f.tt == if arg == Tuple(0) then 1 else 2
       case OtherType => false
  }

  function Tagged<Ty>(items: seq<TraitItem<Ty>>): seq<TraitItem<Ty>> {
    if items == [] then []
    else (if items[0].Method? && items[0].attr.Some? then [items[0]] else []) + Tagged(items[1..])
  }

  ghost predicate AllDescribed<Ty>(funcs: seq<FuncInfo<Ty>>, items: seq<TraitItem<Ty>>) {
    |funcs| == |items| && forall i :: 0 <= i < |funcs| ==> Describes(funcs[i], items[i])
  }

  /** Expansion succeeds exactly on interfaces whose items are all well formed, and then describes
      exactly the tagged methods, in order. */
  lemma {:induction false} ExpandsExactly<Ty>(items: seq<TraitItem<Ty>>)
    ensures FuncsOf(items).Ok? <==> forall i :: 0 <= i < |items| ==> WellFormed(items[i])
    ensures FuncsOf(items).Ok? ==> AllDescribed(FuncsOf(items).value, Tagged(items))
  {
    hide WellFormed, FuncOf, Describes;
    if items != [] {
      ExpandsExactly(items[1..]);
      ItemExactly(items[0]);
      assert forall i :: 0 < i < |items| ==> items[i] == items[1..][i - 1];
      if FuncsOf(items).Ok? && FuncOf(items[0]).value.Some? {
        var f, rest := FuncOf(items[0]).value.value, FuncsOf(items[1..]).value;
        assert FuncsOf(items).value == [f] + rest && Tagged(items) == [items[0]] + Tagged(items[1..]);
      } else if FuncsOf(items).Ok? {
        assert FuncsOf(items).value == FuncsOf(items[1..]).value && Tagged(items) == Tagged(items[1..]);
      }
    }
  }

  lemma ItemExactly<Ty>(item: TraitItem<Ty>)
    ensures FuncOf(item).Ok? <==> WellFormed(item)
    ensures FuncOf(item).Ok? ==>
      match FuncOf(item).value
      case None => item.OtherItem? || item.attr.None?
      case Some(f) => item.Method? && item.attr.Some? && Describes(f, item)
  {
    hide ResultTt, NamedInputs, FirstResult, Lists, Params;
    if item.Method? {
      NamedInputsExactly(item.inputs);
      if item.output.PathType? {
        ResultTtExactly(item.output.segments);
      }
    }
  }

  // ----- stubs -----

  /** The three macro forms a generated function body can use, by the call type they put on the wire. */
  datatype StubKind = RunNotErr | CheckRun | CallValue {
    function Tt(): byte {
      match this
      case RunNotErr => 0
      case CheckRun => 1
      case CallValue => 2
    }
  }

  datatype Stub = Stub(name: string, kind: StubKind, tag: i32, inputNames: seq<string>)

  function StubFor<Ty>(f: FuncInfo<Ty>): (r: Result<Stub>)
    ensures r.Ok? <==> f.tt < 3
    ensures r.Ok? ==> r.value.kind == if f.tt == 0 then RunNotErr else if f.tt == 1 then CheckRun else CallValue
    ensures r.Ok? ==> r.value.tag == f.tag && r.value.name == f.name && r.value.inputNames == f.inputNames
  {
    match f.tt
    case 0 => Ok(Stub(f.name, RunNotErr, f.tag, f.inputNames))
    case 1 => Ok(Stub(f.name, CheckRun, f.tag, f.inputNames))
    case 2 => Ok(Stub(f.name, CallValue, f.tag, f.inputNames))
    case _ => Err(Panic)
  }

  /** `get_impl_func_client` and `get_impl_func_server`: one stub per function, in order; on the
      functions of a parsed interface this never panics. */
  method GetImplFuncs<Ty>(funcs: seq<FuncInfo<Ty>>) returns (r: Result<seq<Stub>>)
    ensures r.Ok? <==> forall i :: 0 <= i < |funcs| ==> funcs[i].tt < 3
    ensures r.Ok? ==> |r.value| == |funcs|
    ensures r.Ok? ==> forall i :: 0 <= i < |funcs| ==>
      && Ok(r.value[i]) == StubFor(funcs[i])
      && r.value[i].name == funcs[i].name && r.value[i].tag == funcs[i].tag
      && r.value[i].inputNames == funcs[i].inputNames
      && r.value[i].kind == if funcs[i].tt == 0 then RunNotErr else if funcs[i].tt == 1 then CheckRun else CallValue
  {
    var stubs: seq<Stub> := [];
    for i := 0 to |funcs|
      invariant |stubs| == i && forall j :: 0 <= j < i ==> funcs[j].tt < 3 && Ok(stubs[j]) == StubFor(funcs[j])
    {
      var stub :- StubFor(funcs[i]);
      stubs := stubs + [stub];
    }
    r := Ok(stubs);
  }

  // ----- packed values -----

  /** Serialisation of one value, and deserialisation at a type with what follows left over. */
  datatype Codec<!V, !Ty> = Codec(
    pack: V -> Option<bytes>,
    unpack: (Ty, bytes) -> Option<(V, bytes)>,
    hasType: (Ty, V) -> bool)

  /** What is taken for granted about serialisation: packed values are self-delimiting. */
  ghost predicate RoundTrips<V(!new), Ty(!new)>(c: Codec<V, Ty>) {
    forall ty: Ty, v: V, rest: bytes {:trigger c.unpack(ty, c.pack(v).value + rest)} ::
      c.hasType(ty, v) && c.pack(v).Some? ==> c.unpack(ty, c.pack(v).value + rest) == Some((v, rest))
  }

  function PackAll<V, Ty>(c: Codec<V, Ty>, args: seq<V>): (r: Option<seq<bytes>>)
    ensures r.Some? ==> |r.value| == |args|
  {
    if args == [] then Some([]) else
    match c.pack(args[0])
    case None => None
    case Some(b) =>
      match PackAll(c, args[1..])
      case None => None
      case Some(bs) => Some([b] + bs)
  }

  function UnpackAll<V, Ty>(c: Codec<V, Ty>, types: seq<Ty>, b: bytes): (r: Option<seq<V>>)
    ensures r.Some? ==> |r.value| == |types|
  {
    if types == [] then Some([]) else
    match c.unpack(types[0], b)
    case None => None
    case Some((v, rest)) =>
      match UnpackAll(c, types[1..], rest)
      case None => None
      case Some(vs) => Some([v] + vs)
  }

  // ----- dispatch -----

  /** An implementation of the interface: what the n-th function does with its arguments. */
  type Handlers<!V> = (nat, seq<V>) -> Result<V>

  /** What a dispatched message did: which function ran with which arguments, and what came back. */
  datatype Reaction<V> = Reaction(ran: Option<(nat, seq<V>)>, result: Result<RetResult>)

  /** Match arms are tried in order; a later arm with the same tag is unreachable. */
  function FirstMatch<Ty>(funcs: seq<FuncInfo<Ty>>, cmd: i32, from: nat): (r: Option<nat>)
    requires from <= |funcs|
    ensures r.Some? ==> from <= r.value < |funcs| && funcs[r.value].tag == cmd
    ensures r.Some? ==> forall j :: from <= j < r.value ==> funcs[j].tag != cmd
    ensures r.None? ==> forall j :: from <= j < |funcs| ==> funcs[j].tag != cmd
    decreases |funcs| - from
  {
    if from == |funcs| then None
    else if funcs[from].tag == cmd then Some(from)
    else FirstMatch(funcs, cmd, from + 1)
  }

  /** `add_arg_buff`: a value that cannot be serialised is logged and left out. */
  function AddArg(r: RetResult, packed: Option<bytes>): RetResult {
    match packed
    case Some(b) => r.(arguments := r.arguments + [b])
    case None => r
  }

  function Arguments<V, Ty>(c: Codec<V, Ty>, f: FuncInfo<Ty>, data: bytes): Result<seq<V>> {
    var (n, t) :- TakeU32(data);
    if n != |f.argTypes| then Err(DecodeError) else
    match UnpackAll(c, f.argTypes, t)
    case None => Err(DecodeError)
    case Some(args) => Ok(args)
  }

  function Completed<V, Ty>(c: Codec<V, Ty>, tt: byte, outcome: Result<V>): Result<RetResult> {
    if tt == 0 then Ok(Success())
    else match outcome
      case Err(e) => Err(e)
      case Ok(v) => Ok(if tt == 1 then Success() else AddArg(Success(), c.pack(v)))
  }

  function RunArm<V, Ty>(c: Codec<V, Ty>, handlers: Handlers<V>, f: FuncInfo<Ty>, i: nat, tt: byte, data: bytes)
    : Reaction<V>
  {
    if f.tt > 2 then Reaction(None, Err(Panic))
    else if tt != f.tt then Reaction(None, Err(DecodeError))
    else match Arguments(c, f, data)
      case Err(e) => Reaction(None, Err(e))
      case Ok(args) => Reaction(Some((i, args)), Completed(c, tt, handlers(i, args)))
  }

  predicate IsSpecial(cmd: i32) { cmd == CONNECT || cmd == DISCONNECT || cmd == CLOSED }

  function Dispatch<V, Ty>(
      c: Codec<V, Ty>, handlers: Handlers<V>, funcs: seq<FuncInfo<Ty>>, tt: byte, cmd: i32, data: bytes)
    : Reaction<V>
  {
    match FirstMatch(funcs, cmd, 0)
    case Some(i) => RunArm(c, handlers, funcs[i], i, tt, data)
    case None => Reaction(None, if IsSpecial(cmd) then Ok(Success()) else Err(DecodeError))
  }

  /** `call_special_function`: call type 1, four zero bytes of arguments. */
  function CallSpecial<V, Ty>(c: Codec<V, Ty>, handlers: Handlers<V>, funcs: seq<FuncInfo<Ty>>, cmd: i32): Reaction<V> {
    Dispatch(c, handlers, funcs, 1, cmd, [0, 0, 0, 0])
  }

  /** A message runs function `i` with `args` exactly when `i` is the first with its tag and the call
      type, the argument count and every argument fit. */
  lemma DispatchSound<V, Ty>(
      c: Codec<V, Ty>, handlers: Handlers<V>, funcs: seq<FuncInfo<Ty>>, tt: byte, cmd: i32, data: bytes,
      i: nat, args: seq<V>)
    ensures Dispatch(c, handlers, funcs, tt, cmd, data).ran == Some((i, args))
      <==>
        && i < |funcs| && funcs[i].tag == cmd && (forall j :: 0 <= j < i ==> funcs[j].tag != cmd)
        && tt == funcs[i].tt && tt < 3
        && TakeU32(data).Ok? && TakeU32(data).value.0 == |funcs[i].argTypes|
        && UnpackAll(c, funcs[i].argTypes, TakeU32(data).value.1) == Some(args)
  {
    hide UnpackAll;
  }

  /** What runs answers as its call type says: type 0 and type 1 without arguments, type 2 with the packed
      value, or with nothing if it cannot be serialised; and an error is passed on but for type 0. */
  lemma AnswerCarries<V, Ty>(
      c: Codec<V, Ty>, handlers: Handlers<V>, funcs: seq<FuncInfo<Ty>>, tt: byte, cmd: i32, data: bytes)
    ensures var reaction := Dispatch(c, handlers, funcs, tt, cmd, data);
      reaction.ran.Some? ==>
        match handlers(reaction.ran.value.0, reaction.ran.value.1)
        case Err(e) => reaction.result == if tt == 0 then Ok(Success()) else Err(e)
        case Ok(v) =>
          && reaction.result.Ok?
          && !reaction.result.value.isError
          && reaction.result.value.arguments == if tt == 2 && c.pack(v).Some? then [c.pack(v).value] else []
  {
    hide Arguments;
  }

  /** A message whose tag the interface has, but which runs nothing, is an error. */
  lemma MismatchFails<V, Ty>(
      c: Codec<V, Ty>, handlers: Handlers<V>, funcs: seq<FuncInfo<Ty>>, tt: byte, cmd: i32, data: bytes, i: nat)
    requires i < |funcs| && funcs[i].tag == cmd
    ensures var reaction := Dispatch(c, handlers, funcs, tt, cmd, data);
      reaction.ran == None ==> reaction.result.Err?
  {
    assert FirstMatch(funcs, cmd, 0).Some?;
  }

  /** With distinct tags the function a caller means is the one that is found. */
  lemma DistinctTagsFound<Ty>(funcs: seq<FuncInfo<Ty>>, i: nat)
    requires i < |funcs| && forall j, k :: 0 <= j < k < |funcs| ==> funcs[j].tag != funcs[k].tag
    ensures FirstMatch(funcs, funcs[i].tag, 0) == Some(i)
  {
    assert FirstMatch(funcs, funcs[i].tag, 0).Some?;
  }

  lemma ZeroCount()
    ensures TakeU32([0, 0, 0, 0]) == Ok((0, []))
  {
    Pow256Widths();
    assert LE(0, 1) == [0] + LE(0, 0) && LE(0, 2) == [0] + LE(0, 1);
    assert LE(0, 3) == [0] + LE(0, 2) && LE(0, 4) == [0] + LE(0, 3);
    assert PutU32(0) == [0, 0, 0, 0] && PutU32(0) + [] == PutU32(0);
    U32RoundTrip(0, []);
  }

  /** Connect, Disconnect and Closed (tags 2147483647, 2147483646 and 2147483645) succeed silently when the
      interface does not mention them, and otherwise run only if declared with call type 1 and no
      arguments; the outcome is then the implementation's. */
  lemma SpecialFunctions<V, Ty>(c: Codec<V, Ty>, handlers: Handlers<V>, funcs: seq<FuncInfo<Ty>>, cmd: i32)
    requires cmd == 0x7FFF_FFFF || cmd == 0x7FFF_FFFE || cmd == 0x7FFF_FFFD
    ensures var reaction := CallSpecial(c, handlers, funcs, cmd);
      match FirstMatch(funcs, cmd, 0)
      case None => reaction.ran == None && reaction.result.Ok? && !reaction.result.value.isError
      case Some(i) =>
        if funcs[i].tt == 1 && funcs[i].argTypes == [] then
          && reaction.ran == Some((i, []))
          && match handlers(i, [])
             case Ok(_) => reaction.result.Ok? && !reaction.result.value.isError
             case Err(e) => reaction.result == Err(e)
        else
          reaction.ran == None && reaction.result.Err?
  {
    hide LE, FromLE;
    ZeroCount();
  }

  /** Any other tag that the interface does not have is an error, and runs nothing. */
  lemma UnknownTagFails<V, Ty>(
      c: Codec<V, Ty>, handlers: Handlers<V>, funcs: seq<FuncInfo<Ty>>, tt: byte, cmd: i32, data: bytes)
    requires forall i :: 0 <= i < |funcs| ==> funcs[i].tag != cmd
    ensures var reaction := Dispatch(c, handlers, funcs, tt, cmd, data);
      && reaction.ran == None
      && (reaction.result.Err? <==> cmd != 0x7FFF_FFFF && cmd != 0x7FFF_FFFE && cmd != 0x7FFF_FFFD)
  {
  }

  // ----- what a stub passes -----

  /** What the body of a generated function hands to the macro: its parameters, looked up by name in what
      the caller passed. */
  function Passed<V>(stub: Stub, scope: map<string, V>): (r: Option<seq<V>>) {
    PassedFrom(stub.inputNames, scope)
  }

  function PassedFrom<V>(names: seq<string>, scope: map<string, V>): Option<seq<V>> {
    if names == [] then Some([])
    else if names[0] !in scope then None
    else match PassedFrom(names[1..], scope)
      case None => None
      case Some(vs) => Some([scope[names[0]]] + vs)
  }

  /** A stub passes its caller's arguments in the order of the declaration, whatever the parameters are
      called. */
  lemma StubPassesInOrder<V, Ty>(f: FuncInfo<Ty>, stub: Stub, args: seq<V>, scope: map<string, V>)
    requires StubFor(f) == Ok(stub) && |args| == |f.inputNames|
    requires forall k :: 0 <= k < |args| ==> f.inputNames[k] in scope && scope[f.inputNames[k]] == args[k]
    ensures Passed(stub, scope) == Some(args)
  {
    PassedInOrder(f.inputNames, args, scope);
  }

  lemma {:induction false} PassedInOrder<V>(names: seq<string>, args: seq<V>, scope: map<string, V>)
    requires |names| == |args|
    requires forall k :: 0 <= k < |args| ==> names[k] in scope && scope[names[k]] == args[k]
    ensures PassedFrom(names, scope) == Some(args)
  {
    if names != [] {
      PassedInOrder(names[1..], args[1..], scope);
      HeadTail(args);
    }
  }

  lemma {:induction false} ArgumentsRoundTrip<V(!new), Ty(!new)>(
      c: Codec<V, Ty>, types: seq<Ty>, args: seq<V>, packed: seq<bytes>)
    requires RoundTrips(c) && |types| == |args| && PackAll(c, args) == Some(packed)
    requires forall i :: 0 <= i < |args| ==> c.hasType(types[i], args[i])
    ensures UnpackAll(c, types, Concat(packed)) == Some(args)
  {
    if args != [] {
      var b := c.pack(args[0]).value;
      assert packed[1..] == PackAll(c, args[1..]).value;
      ArgumentsRoundTrip(c, types[1..], args[1..], packed[1..]);
      assert c.unpack(types[0], b + Concat(packed[1..])) == Some((args[0], Concat(packed[1..])));
      HeadTail(args);
    }
  }
}
