/** A value-level model of the streaming JSON writer.

    The writer's state is the text written so far (`tell()` is its length), the stack of open
    scopes, and the two flags `closed` and `context_manager_held`. Each operation of the writer
    is a function from the old state to the new state and the operation's return value; the
    class in module StreamWriting is proved against these functions.

    `json.dumps` is not modelled: an `Encoder` stands for it, an arbitrary total function from
    values (and from keys) to text. */
module WriterModel {

  /** ContextTypes: the two kinds of structural scope. */
  datatype ContextType = Object | Array

  /** `str(ContextTypes.X)`: the character that opens a scope of the given kind. */
  function Opener(kind: ContextType): (c: char)
    ensures c == '{' <==> kind == Object
    ensures c == '[' <==> kind == Array
  {
    match kind
    case Object => '{'
    case Array => '['
  }

  /** The character close_current_context writes when it pops a scope of the given kind. */
  function Closer(kind: ContextType): (c: char)
    ensures c == '}' <==> kind == Object
    ensures c == ']' <==> kind == Array
  {
    match kind
    case Array => ']'
    case Object => '}'
  }

  /** One open scope. Being a value, a copy of it can never change the stacked original. */
  datatype Context = Context(kind: ContextType, startIndex: int, endIndex: int, itemsInserted: int)

  /** The two failures the writer reports as results: `KeyError('No current context')` and
      `ValueError('Context key cannot be None')`. */
  datatype Error = NoCurrentContext | NoneContextKey

  datatype Result<T> = Ok(value: T) | Err(error: Error)

  /** What the context-opening operations return: the bare `None` of a normal return, or an `Err`. */
  datatype Outcome = Pass | Fail(error: Error)

  datatype Option<T> = None | Some(value: T)

  /** A 1-based `(start, end)` pair of output positions, end exclusive. */
  type Span = (int, int)

  /** `json.dumps`, applied to item values and to key strings. */
  datatype Encoder<!V> = Encoder(encodeValue: V -> string, encodeKey: string -> string)

  /** Everything the writer's operations read or change. */
  datatype WriterState = WriterState(out: string, stack: seq<Context>, closed: bool, held: bool)

  /** The innermost scope: the one pushed last. */
  function Top(stack: seq<Context>): (top: Context)
    requires stack != []
    ensures top in stack && top == stack[|stack| - 1]
  {
    stack[|stack| - 1]
  }

  /** `list.pop()`: the stack without its innermost scope; pushing that scope back restores it. */
  function Pop(stack: seq<Context>): (rest: seq<Context>)
    requires stack != []
    ensures |rest| == |stack| - 1
    ensures rest < stack
  {
    stack[..|stack| - 1]
  }

  /** A scope appended to the stack (`list.append`) is the one the next read and the next pop
      see, and popping it gives back the stack as it was. */
  lemma PushThenTopAndPop(stack: seq<Context>, c: Context)
    ensures Top(stack + [c]) == c
    ensures Pop(stack + [c]) == stack
  {
  }

  /** get_current_context: the innermost scope, as a value, or an error on an empty stack. */
  function GetCurrentContext(s: WriterState): (r: Result<Context>)
    ensures r.Err? <==> s.stack == []
    ensures r.Err? ==> r.error == NoCurrentContext
    ensures r.Ok? ==> r.value == s.stack[|s.stack| - 1]
  {
    if |s.stack| == 0 then Err(NoCurrentContext) else Ok(Top(s.stack))
  }

  /** The value separator written before an item, given the scope it goes into. */
  function Separator(current: Context): (sep: string)
    ensures sep == ", " <==> current.itemsInserted > 0
    ensures sep == "" <==> current.itemsInserted <= 0
  {
    if current.itemsInserted > 0 then ", " else ""
  }

  /** The member name written before a nested scope: only inside an object. */
  function KeyPrefix<V>(enc: Encoder<V>, parent: ContextType, key: Option<string>): (prefix: string)
    requires parent == Object ==> key.Some?
    ensures parent == Array ==> prefix == ""
    ensures parent == Object ==>
      var k := enc.encodeKey(key.value);
      |prefix| == |k| + 2 && prefix[..|k|] == k && prefix[|k|..] == ": "
  {
    if parent == Object then enc.encodeKey(key.value) + ": " else ""
  }

  /** add_array_context (kind Array) and _add_object_context (kind Object). Both check the key
      before writing anything; on success they write the separator, the key when the parent is
      an object, and the opening character, and push one new scope. */
  function OpenContext<V>(s: WriterState, enc: Encoder<V>, kind: ContextType, key: Option<string>): (r: (WriterState, Outcome))
    ensures r.0.closed == s.closed && r.0.held == s.held
    ensures r.1.Fail? ==> r.0 == s
    ensures r.1.Pass? <==> s.stack != [] && !(Top(s.stack).kind == Object && key.None?)
    ensures s.stack == [] ==> r.1 == Fail(NoCurrentContext)
    ensures s.stack != [] ==> (r.1 == Fail(NoneContextKey) <==> Top(s.stack).kind == Object && key.None?)
    ensures r.1.Pass? ==>
      && s.stack != []
      && |r.0.stack| == |s.stack| + 1
      && r.0.stack[..|s.stack|] == s.stack
      && var sep := Separator(Top(s.stack));
         var at := |s.out| + |sep| + 1;
         && Top(r.0.stack) == Context(kind, at, at, 0)
         && r.0.out == s.out + sep + KeyPrefix(enc, Top(s.stack).kind, key) + [Opener(kind)]
  {
    match GetCurrentContext(s)
    case Err(e) => (s, Fail(e))
    case Ok(current) =>
      if key.None? && current.kind == Object then
        (s, Fail(NoneContextKey))
      else
        var sep := Separator(current);
        var at := |s.out| + |sep| + 1;
        var text := sep + KeyPrefix(enc, current.kind, key) + [Opener(kind)];
        (s.(out := s.out + text, stack := s.stack + [Context(kind, at, at, 0)]), Pass)
  }

  /** add_object_context: may only be called on an empty stack, where the shared opening logic
      finds no current scope; so it never succeeds and never changes anything. */
  function AddObjectContext<V>(s: WriterState, enc: Encoder<V>, key: Option<string>): (r: (WriterState, Outcome))
    requires s.stack == []
    ensures r == (s, Fail(NoCurrentContext))
  {
    OpenContext(s, enc, Object, key)
  }

  /** The part add_array_item and add_object_item share: the separator, then `text`, whose
      span is returned. The stack is left as it was, counters included. */
  function InsertItem(s: WriterState, text: string): (r: (WriterState, Result<Span>))
    ensures r.1.Ok? <==> s.stack != []
    ensures r.1.Err? ==> r == (s, Err(NoCurrentContext))
    ensures r.0.stack == s.stack && r.0.closed == s.closed && r.0.held == s.held
    ensures r.1.Ok? ==>
      var sep := Separator(Top(s.stack));
      var (start, end) := r.1.value;
      && r.0.out == s.out + sep + text
      && start == |s.out| + |sep| + 1
      && end - start == |text|
      && end == |r.0.out| + 1
      && r.0.out[start - 1..end - 1] == text
  {
    match GetCurrentContext(s)
    case Err(e) => (s, Err(e))
    case Ok(current) =>
      var written := s.out + Separator(current);
      var start := |written| + 1;
      var out := written + text;
      (s.(out := out), Ok((start, |out| + 1)))
  }

  /** add_array_item. */
  function AddArrayItem<V>(s: WriterState, enc: Encoder<V>, item: V): (r: (WriterState, Result<Span>))
    ensures r.1.Err? <==> s.stack == []
    ensures r.1.Err? ==> r == (s, Err(NoCurrentContext))
    ensures r.0.stack == s.stack && r.0.closed == s.closed && r.0.held == s.held
    ensures r.1.Ok? ==>
      var (start, end) := r.1.value;
      && r.0.out == s.out + Separator(Top(s.stack)) + enc.encodeValue(item)
      && start == |s.out| + |Separator(Top(s.stack))| + 1
      && end - start == |enc.encodeValue(item)|
      && r.0.out[start - 1..end - 1] == enc.encodeValue(item)
  {
    InsertItem(s, enc.encodeValue(item))
  }

  /** The text add_object_item writes for one member, after any separator. */
  function ObjectEntry<V>(enc: Encoder<V>, key: string, value: V): (entry: string)
    ensures var k, v := enc.encodeKey(key), enc.encodeValue(value);
      && |entry| == |k| + 2 + |v|
      && entry[..|k|] == k
      && entry[|k|..|k| + 2] == ": "
      && entry[|k| + 2..] == v
  {
    enc.encodeKey(key) + ": " + enc.encodeValue(value)
  }

  /** add_object_item: the returned span covers the whole member, key through value. */
  function AddObjectItem<V>(s: WriterState, enc: Encoder<V>, key: string, value: V): (r: (WriterState, Result<Span>))
    ensures r.1.Err? <==> s.stack == []
    ensures r.1.Err? ==> r == (s, Err(NoCurrentContext))
    ensures r.0.stack == s.stack && r.0.closed == s.closed && r.0.held == s.held
    ensures r.1.Ok? ==>
      var (start, end) := r.1.value;
      && r.0.out == s.out + Separator(Top(s.stack)) + ObjectEntry(enc, key, value)
      && start == |s.out| + |Separator(Top(s.stack))| + 1
      && end - start == |enc.encodeKey(key)| + 2 + |enc.encodeValue(value)|
      && r.0.out[start - 1..end - 1] == ObjectEntry(enc, key, value)
      && r.0.out[start - 1..start - 1 + |enc.encodeKey(key)|] == enc.encodeKey(key)
  {
    var r := InsertItem(s, ObjectEntry(enc, key, value));
    if r.1.Ok? then
      var start := r.1.value.0;
      var entry := ObjectEntry(enc, key, value);
      assert r.0.out[start - 1..start - 1 + |enc.encodeKey(key)|] == entry[..|enc.encodeKey(key)|];
      r
    else
      r
  }

  /** close_current_context: pops one scope and writes its closing character; on an empty
      stack it returns false and changes nothing. */
  function CloseCurrentContext(s: WriterState): (r: (WriterState, bool))
    ensures r.1 <==> s.stack != []
    ensures !r.1 ==> r.0 == s
    ensures r.1 ==>
      && r.0.stack == s.stack[..|s.stack| - 1]
      && r.0.out == s.out + [Closer(s.stack[|s.stack| - 1].kind)]
      && r.0.closed == s.closed && r.0.held == s.held
  {
    if |s.stack| == 0 then
      (s, false)
    else
      var context := Top(s.stack);
      (s.(stack := Pop(s.stack), out := s.out + [Closer(context.kind)]), true)
  }

  /** The closing characters of every scope on `stack`, innermost first. */
  function ClosingText(stack: seq<Context>): (t: string)
    ensures |t| == |stack|
  {
    if stack == [] then [] else [Closer(Top(stack).kind)] + ClosingText(Pop(stack))
  }

  /** The i-th closing character belongs to the i-th scope counted from the top. */
  lemma {:induction false} ClosingTextLifo(stack: seq<Context>, i: int)
    requires 0 <= i < |stack|
    ensures ClosingText(stack)[i] == Closer(stack[|stack| - 1 - i].kind)
  {
    if i > 0 {
      ClosingTextLifo(Pop(stack), i - 1);
    }
  }

  /** close: pops scopes one at a time until none is left, then marks the writer closed. */
  function Close(s: WriterState): (r: WriterState)
    decreases |s.stack|
    ensures r.stack == [] && r.closed && r.held == s.held
    ensures r.out == s.out + ClosingText(s.stack)
  {
    if |s.stack| == 0 then s.(closed := true) else Close(CloseCurrentContext(s).0)
  }

  /** close writes exactly one closing character per open scope, from the innermost out, and
      nothing when no scope is open. */
  lemma CloseWritesClosersLifo(s: WriterState)
    ensures Close(s).out[..|s.out|] == s.out
    ensures var closing := Close(s).out[|s.out|..];
      && |closing| == |s.stack|
      && forall i :: 0 <= i < |closing| ==> closing[i] == Closer(s.stack[|s.stack| - 1 - i].kind)
    ensures s.stack == [] ==> Close(s).out == s.out
  {
    assert Close(s).out[|s.out|..] == ClosingText(s.stack);
    ClosingTextIsLifo(s.stack);
  }

  /** ClosingTextLifo for every position at once. */
  lemma ClosingTextIsLifo(stack: seq<Context>)
    ensures forall i :: 0 <= i < |stack| ==> ClosingText(stack)[i] == Closer(stack[|stack| - 1 - i].kind)
  {
    forall i | 0 <= i < |stack|
      ensures ClosingText(stack)[i] == Closer(stack[|stack| - 1 - i].kind)
    {
      ClosingTextLifo(stack, i);
    }
  }

  /** __enter__: only allowed when not already held; marks the writer held. */
  function Enter(s: WriterState): (r: WriterState)
    requires !s.held
    ensures r.held && r.out == s.out && r.stack == s.stack && r.closed == s.closed
  {
    s.(held := true)
  }

  /** __exit__: releases the writer and closes it. */
  function Exit(s: WriterState): (r: WriterState)
    ensures !r.held && r.closed && r.stack == []
    ensures r.out == s.out + ClosingText(s.stack)
  {
    Close(s.(held := false))
  }

  /** The constructor: an empty output, an empty stack, and a call of _add_object_context that
      fails because there is no current scope yet. */
  function Init<V>(enc: Encoder<V>): (s: WriterState)
    ensures s.out == [] && s.stack == [] && !s.closed && !s.held
  {
    var empty := WriterState([], [], false, false);
    var openedState := OpenContext(empty, enc, Object, None).0;
    openedState.(held := false, closed := false)
  }

  /** The writer's state-changing calls, for reasoning about sequences of them. */
  datatype Op<V> =
    | OpenArray(key: Option<string>)             // add_array_context
    | OpenRootObject(key: Option<string>)        // add_object_context
    | OpenObject(key: Option<string>)            // _add_object_context
    | ArrayItem(item: V)                         // add_array_item
    | ObjectItem(name: string, value: V)         // add_object_item
    | CloseCurrent                               // close_current_context
    | CloseWriter                                // close
    | EnterScope                                 // __enter__
    | ExitScope                                  // __exit__

  /** One call. A call whose assertion fails (a second __enter__, add_object_context on a
      non-empty stack) raises before changing anything, so it leaves the state as it was. */
  function Step<V>(s: WriterState, enc: Encoder<V>, op: Op<V>): (r: WriterState)
    ensures s.closed ==> r.closed
    ensures r.closed != s.closed ==> op.CloseWriter? || op.ExitScope?
    ensures r.held != s.held ==> op.EnterScope? || op.ExitScope?
    ensures |r.stack| <= |s.stack| + 1
    ensures s.stack == [] ==> r.stack == [] && r.out == s.out
  {
    match op
    case OpenArray(key) => OpenContext(s, enc, Array, key).0
    case OpenRootObject(key) => if s.stack == [] then AddObjectContext(s, enc, key).0 else s
    case OpenObject(key) => OpenContext(s, enc, Object, key).0
    case ArrayItem(item) => AddArrayItem(s, enc, item).0
    case ObjectItem(name, value) => AddObjectItem(s, enc, name, value).0
    case CloseCurrent => CloseCurrentContext(s).0
    case CloseWriter => Close(s)
    case EnterScope => if s.held then s else Enter(s)
    case ExitScope => Exit(s)
  }

  /** The calls in `ops`, in order. */
  function Run<V>(s: WriterState, enc: Encoder<V>, ops: seq<Op<V>>): (r: WriterState)
    decreases |ops|
    ensures s.closed ==> r.closed
    ensures |r.stack| <= |s.stack| + |ops|
  {
    if ops == [] then s else Run(Step(s, enc, ops[0]), enc, ops[1..])
  }

  /** No call takes back text already written. */
  lemma StepAppends<V>(s: WriterState, enc: Encoder<V>, op: Op<V>)
    ensures s.out <= Step(s, enc, op).out
  {
  }

  lemma {:induction false} RunAppends<V>(s: WriterState, enc: Encoder<V>, ops: seq<Op<V>>)
    ensures s.out <= Run(s, enc, ops).out
    decreases |ops|
  {
    if ops != [] {
      var next := Step(s, enc, ops[0]);
      StepAppends(s, enc, ops[0]);
      RunAppends(next, enc, ops[1..]);
      assert s.out == next.out[..|s.out|];
    }
  }

  /** A span returned by add_array_item still brackets the encoded item after any later calls,
      so a caller can seek back to it. */
  lemma ArrayItemSpanStaysValid<V>(s: WriterState, enc: Encoder<V>, item: V, ops: seq<Op<V>>)
    requires s.stack != []
    ensures var (t, r) := AddArrayItem(s, enc, item);
      && r.Ok?
      && 1 <= r.value.0 <= r.value.1 <= |Run(t, enc, ops).out| + 1
      && Run(t, enc, ops).out[r.value.0 - 1..r.value.1 - 1] == enc.encodeValue(item)
  {
    var (t, r) := AddArrayItem(s, enc, item);
    RunAppends(t, enc, ops);
    var later := Run(t, enc, ops).out;
    assert t.out == later[..|t.out|];
    assert later[r.value.0 - 1..r.value.1 - 1] == t.out[r.value.0 - 1..r.value.1 - 1];
  }

  /** A span returned by add_object_item still brackets the member after any later calls. */
  lemma ObjectItemSpanStaysValid<V>(s: WriterState, enc: Encoder<V>, key: string, value: V, ops: seq<Op<V>>)
    requires s.stack != []
    ensures var (t, r) := AddObjectItem(s, enc, key, value);
      && r.Ok?
      && 1 <= r.value.0 <= r.value.1 <= |Run(t, enc, ops).out| + 1
      && Run(t, enc, ops).out[r.value.0 - 1..r.value.1 - 1] == ObjectEntry(enc, key, value)
  {
    var (t, r) := AddObjectItem(s, enc, key, value);
    RunAppends(t, enc, ops);
    var later := Run(t, enc, ops).out;
    assert t.out == later[..|t.out|];
    assert later[r.value.0 - 1..r.value.1 - 1] == t.out[r.value.0 - 1..r.value.1 - 1];
  }

  /** Because only a copy's counter is incremented, two items in a row are each preceded by the
      same separator: the top scope's, which never changes. */
  lemma ItemsRepeatTheTopSeparator<V>(s: WriterState, enc: Encoder<V>, a: V, b: V)
    requires s.stack != []
    ensures var sep := Separator(Top(s.stack));
      AddArrayItem(AddArrayItem(s, enc, a).0, enc, b).0.out
        == s.out + sep + enc.encodeValue(a) + sep + enc.encodeValue(b)
  {
  }

  /** Opening a scope and closing it again restores the stack and brackets the scope with
      matching characters. */
  lemma OpenThenClose<V>(s: WriterState, enc: Encoder<V>, kind: ContextType, key: Option<string>)
    requires OpenContext(s, enc, kind, key).1.Pass?
    ensures var openedState := OpenContext(s, enc, kind, key).0;
      var (closed, popped) := CloseCurrentContext(openedState);
      && popped
      && closed.stack == s.stack
      && closed.out == openedState.out + [Closer(kind)]
      && openedState.out[|openedState.out| - 1] == Opener(kind)
  {
    var openedState := OpenContext(s, enc, kind, key).0;
    assert openedState.stack[..|openedState.stack| - 1] == s.stack;
  }

  /** On an empty stack every call leaves the output alone and the stack empty. */
  lemma {:induction false} EmptyStackIsInert<V>(s: WriterState, enc: Encoder<V>, ops: seq<Op<V>>)
    requires s.stack == []
    ensures Run(s, enc, ops).stack == [] && Run(s, enc, ops).out == s.out
    decreases |ops|
  {
    if ops != [] {
      EmptyStackIsInert(Step(s, enc, ops[0]), enc, ops[1..]);
    }
  }

  /** After close, no call writes anything more. */
  lemma NoWriteAfterClose<V>(s: WriterState, enc: Encoder<V>, ops: seq<Op<V>>)
    ensures Run(Close(s), enc, ops).out == Close(s).out
    ensures Run(Close(s), enc, ops).stack == []
  {
    EmptyStackIsInert(Close(s), enc, ops);
  }

  /** Every state reachable from construction has an empty stack and an empty output, and in it
      every operation fails for want of a current scope: the root object is never opened. */
  lemma ReachableWriterIsInert<V>(enc: Encoder<V>, ops: seq<Op<V>>)
    ensures var s := Run(Init(enc), enc, ops);
      && s.stack == []
      && s.out == []
      && GetCurrentContext(s) == Err(NoCurrentContext)
      && (forall kind, key :: OpenContext(s, enc, kind, key).1 == Fail(NoCurrentContext))
      && (forall item :: AddArrayItem(s, enc, item).1 == Err(NoCurrentContext))
      && (forall key, value :: AddObjectItem(s, enc, key, value).1 == Err(NoCurrentContext))
      && !CloseCurrentContext(s).1
      && Close(s).out == []
  {
    EmptyStackIsInert(Init(enc), enc, ops);
  }
}
