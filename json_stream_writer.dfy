/** The writer object itself: an output buffer that only grows, a stack of open scopes, and the
    two flags. Each method does what the Python method does, step by step, and is proved to
    leave the object in the state (and return the value) the matching WriterModel function
    gives. The output file is replaced by the `out` buffer and `tell()` by its length. */
module StreamWriting {
  import opened WriterModel

  class JsonStreamWriter<!V> {
    /** `json.dumps`, which the Python code calls as a library function. */
    const enc: Encoder<V>
    var out: string
    var stack: seq<Context>
    var closed: bool
    var held: bool

    /** The object's fields as a WriterModel value. */
    function State(): WriterState
      reads this
    {
      WriterState(out, stack, closed, held)
    }

    /** `self._file_obj.tell()`. */
    function Tell(): (position: nat)
      reads this
      ensures position == |State().out|
    {
      |out|
    }

    /** `__init__`: the file starts empty and the stack starts empty; the call that should open
        the root object finds no current scope and fails, and its error is dropped. */
    constructor (enc: Encoder<V>)
      ensures this.enc == enc
      ensures State() == Init(enc)
      ensures out == [] && stack == [] && !closed && !held
    {
      this.enc := enc;
      out := [];
      stack := [];
      new;
      var _ := AddObjectContextInternal(None);
      held := false;
      closed := false;
    }

    /** `self._file_obj.write(text)`: appends `text` and returns how many characters it wrote. */
    method Write(text: string) returns (written: nat)
      modifies this`out
      ensures out == old(out) + text
      ensures written == |text|
      ensures Tell() == old(Tell()) + written
      ensures out[old(Tell())..Tell()] == text
    {
      out := out + text;
      written := |text|;
    }

    /** `__enter__`: asserts the writer is not held, marks it held and returns it. */
    method Enter() returns (self: JsonStreamWriter<V>)
      requires !held
      modifies this`held
      ensures self == this
      ensures State() == WriterModel.Enter(old(State()))
    {
      held := true;
      self := this;
    }

    /** `__exit__`: releases the writer, then closes it. */
    method Exit()
      modifies this`held, this`out, this`stack, this`closed
      ensures State() == WriterModel.Exit(old(State()))
    {
      held := false;
      Close();
    }

    /** `add_array_context`. */
    method AddArrayContext(key: Option<string>) returns (r: Outcome)
      modifies this`out, this`stack
      ensures (State(), r) == OpenContext(old(State()), enc, Array, key)
    {
      var got := GetCurrentContext();
      if got.Err? {
        return Fail(got.error);
      }
      var current := got.value;
      if key.None? && current.kind == Object {
        return Fail(NoneContextKey);
      }
      if current.itemsInserted > 0 {
        var _ := Write(", ");
      }
      assert out == old(out) + Separator(current);
      var startIdx := Tell() + 1;
      var endIdx := startIdx;
      if current.kind == Object {
        var _ := Write(enc.encodeKey(key.value) + ": ");
      }
      assert out == old(out) + Separator(current) + KeyPrefix(enc, current.kind, key);
      var _ := Write([Opener(Array)]);
      stack := stack + [Context(Array, startIdx, endIdx, 0)];
      return Pass;
    }

    /** `add_object_context`: asserts the stack is empty, then runs the shared opening logic,
        which on an empty stack always fails. */
    method AddObjectContext(key: Option<string>) returns (r: Outcome)
      requires stack == []
      modifies this`out, this`stack
      ensures (State(), r) == WriterModel.AddObjectContext(old(State()), enc, key)
    {
      r := AddObjectContextInternal(key);
    }

    /** `_add_object_context`. The increment of the parent's counter touches only the copy
        get_current_context returned. */
    method AddObjectContextInternal(key: Option<string>) returns (r: Outcome)
      modifies this`out, this`stack
      ensures (State(), r) == OpenContext(old(State()), enc, Object, key)
    {
      var got := GetCurrentContext();
      if got.Err? {
        return Fail(got.error);
      }
      var current := got.value;
      if key.None? && current.kind == Object {
        return Fail(NoneContextKey);
      }
      if current.itemsInserted > 0 {
        var _ := Write(", ");
      }
      assert out == old(out) + Separator(current);
      var startIdx := Tell() + 1;
      var endIdx := startIdx;
      if current.kind == Object {
        var _ := Write(enc.encodeKey(key.value) + ": ");
      }
      assert out == old(out) + Separator(current) + KeyPrefix(enc, current.kind, key);
      current := current.(itemsInserted := current.itemsInserted + 1);
      var _ := Write([Opener(Object)]);
      stack := stack + [Context(Object, startIdx, endIdx, 0)];
      return Pass;
    }

    /** `get_current_context`: a copy of the innermost scope, or an error on an empty stack. */
    method GetCurrentContext() returns (r: Result<Context>)
      ensures r == WriterModel.GetCurrentContext(State())
    {
      if |stack| == 0 {
        return Err(NoCurrentContext);
      }
      return Ok(stack[|stack| - 1]);
    }

    /** `add_array_item`. The counter and end-index updates touch only the local copy. */
    method AddArrayItem(item: V) returns (r: Result<Span>)
      modifies this`out
      ensures (State(), r) == WriterModel.AddArrayItem(old(State()), enc, item)
      ensures r.Ok? ==> out[r.value.0 - 1..r.value.1 - 1] == enc.encodeValue(item)
    {
      var got := GetCurrentContext();
      if got.Err? {
        return Err(got.error);
      }
      var current := got.value;
      if current.itemsInserted > 0 {
        var _ := Write(", ");
      }
      assert out == old(out) + Separator(current);
      var startIdx := Tell() + 1;
      var written := Write(enc.encodeValue(item));
      var endIdx := Tell() + 1;
      current := current.(itemsInserted := current.itemsInserted + 1, endIndex := current.endIndex + written);
      return Ok((startIdx, endIdx));
    }

    /** `add_object_item`. The counter and end-index updates touch only the local copy. */
    method AddObjectItem(key: string, value: V) returns (r: Result<Span>)
      modifies this`out
      ensures (State(), r) == WriterModel.AddObjectItem(old(State()), enc, key, value)
      ensures r.Ok? ==> out[r.value.0 - 1..r.value.1 - 1] == ObjectEntry(enc, key, value)
    {
      var got := GetCurrentContext();
      if got.Err? {
        return Err(got.error);
      }
      var current := got.value;
      if current.itemsInserted > 0 {
        var _ := Write(", ");
      }
      assert out == old(out) + Separator(current);
      var startIdx := Tell() + 1;
      var entry := ObjectEntry(enc, key, value);
      var written := Write(entry);
      var endIdx := Tell() + 1;
      current := current.(itemsInserted := current.itemsInserted + 1, endIndex := current.endIndex + written);
      return Ok((startIdx, endIdx));
    }

    /** `close_current_context`. */
    method CloseCurrentContext() returns (popped: bool)
      modifies this`out, this`stack
      ensures (State(), popped) == WriterModel.CloseCurrentContext(old(State()))
    {
      if |stack| == 0 {
        return false;
      }
      var context := stack[|stack| - 1];
      stack := stack[..|stack| - 1];
      if context.kind == Array {
        var _ := Write("]");
      } else if context.kind == Object {
        var _ := Write("}");
      }
      return true;
    }

    /** `close`: closes scopes until none is left, then marks the writer closed. */
    method Close()
      modifies this`out, this`stack, this`closed
      ensures State() == WriterModel.Close(old(State()))
      ensures stack == [] && closed
      ensures out == old(out) + ClosingText(old(stack))
    {
      while |stack| > 0
        invariant WriterModel.Close(State()) == WriterModel.Close(old(State()))
        decreases |stack|
      {
        var _ := CloseCurrentContext();
      }
      closed := true;
    }
  }
}
