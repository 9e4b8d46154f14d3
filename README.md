# A verified model of JsonStreamWriter

`JsonStreamWriter` writes a JSON document to a file piece by piece. It keeps a stack of open
scopes (`Context` records of kind OBJECT or ARRAY, with `start_index`, `end_index` and
`items_inserted`). Callers open nested arrays and objects, append array items and object
members, and close scopes. Each item append returns the 1-based `(start, end)` span of the text
it wrote, taken from the file position `tell()`. The writer can also be used as a context manager
(`__enter__` / `__exit__`).

The project has two modules.

- `WriterModel` (`writer_model.dfy`) describes the writer as a value `WriterState(out, stack,
  closed, held)`. `out` is the text written so far, and `tell()` is `|out|`. Every operation is a
  function from the old state to the new state and the operation's result. The properties are
  the `ensures` clauses of these functions and the lemmas beside them: spans, stack shape,
  last-in-first-out closing, append-only output, and what a writer reachable from construction
  can do.
- `StreamWriting` (`json_stream_writer.dfy`) holds the class `JsonStreamWriter`. Its fields are
  `out`, `stack`, `closed` and `held`. Its methods follow the Python methods statement by
  statement: write, compute `tell() + 1`, push, pop. Each method is proved to produce exactly the
  state and result of the matching `WriterModel` function. `close` is a `while` loop whose
  invariant keeps `Close` of the current state equal to `Close` of the initial state.

`json.dumps` is a parameter. An `Encoder` holds two arbitrary total functions, one for item values
and one for key strings. The constructor receives it.

What the code does, as the model states it:

- `get_current_context` returns a deep copy of the top scope. A `Context` is a datatype value
  here, so the updates the item and context operations make to it (`items_inserted += 1`,
  `end_index += chars_written`) never reach the stack. The stack's counters never change, so
  the separator a scope receives is the same for every item. `ItemsRepeatTheTopSeparator` states
  this.
- The constructor calls `_add_object_context()` while the stack is still empty. That call
  returns the "no current context" error, so construction writes nothing and pushes nothing.
  `add_object_context` asserts that the stack is empty, so it always gets the same error. From
  construction, the stack and the output therefore stay empty forever, and every operation fails
  or does nothing (`ReachableWriterIsInert`).

The constructor looks as if it opens a root object and writes `{`, and the counter updates look
as if they make a separator appear before the second item. The code does neither, and the model
follows the code.

## Model

| member | source | states |
|---|---|---|
| `WriterModel.Opener` | JsonStreamWriter.py:10-12 | `str(ContextTypes.X)` is `{` exactly for an object and `[` exactly for an array |
| `WriterModel.Closer` | JsonStreamWriter.py:159-162 | The closing character is `}` exactly for an object and `]` exactly for an array |
| `WriterModel.PushThenTopAndPop` | JsonStreamWriter.py:92-101 | The scope appended last is the current scope read next and the one popped next, and popping it restores the earlier stack |
| `WriterModel.Pop` | JsonStreamWriter.py:157 | `list.pop()` leaves a proper prefix of the stack, one scope shorter |
| `WriterModel.KeyPrefix` | JsonStreamWriter.py:57-59 | Under an array nothing is written for the key; under an object the encoded key followed by `": "` |
| `WriterModel.ObjectEntry` | JsonStreamWriter.py:145 | A member's text is the encoded key, then `": "`, then the encoded value, with exactly those lengths |
| `WriterModel.GetCurrentContext` | JsonStreamWriter.py:97-101 | Fails with the no-current-context error exactly when the stack is empty; otherwise yields the top scope as a value |
| `WriterModel.Separator` | JsonStreamWriter.py:115-116 | The separator is `", "` exactly when the scope's `items_inserted` is positive, and empty otherwise |
| `WriterModel.OpenContext` | JsonStreamWriter.py:42-95 | Empty stack: no-current-context error. None key under an object: key error. On every failure nothing is written and the stack is unchanged. On success: writes the optional separator, the encoded key and `": "` only under an object, then `[` or `{`. Pushes exactly one scope of the requested kind with `start_index == end_index ==` (length after the separator) + 1 and zero items. Parent scopes and the flags are unchanged. Succeeds exactly when the stack is non-empty and the key is not None under an object |
| `WriterModel.AddObjectContext` | JsonStreamWriter.py:67-76 | On the empty stack it is allowed on, it always fails with the no-current-context error and changes nothing |
| `WriterModel.InsertItem` | JsonStreamWriter.py:110-124 | Shared item logic: errors on the empty stack without changes. Otherwise appends separator and text, leaves stack and flags unchanged, and returns a span of exactly the text's length that brackets it in the new output |
| `WriterModel.AddArrayItem` | JsonStreamWriter.py:103-124 | Fails exactly on the empty stack, with the output unchanged. Otherwise the output grows by the top's separator and the encoded item, the stack is unchanged, `start` is the length after the separator plus 1, `end - start` is the encoding's length, and `out[start-1..end-1]` is the encoding |
| `WriterModel.AddObjectItem` | JsonStreamWriter.py:126-151 | Same as for array items, for the member `encode(key) + ": " + encode(value)`: the span has the member's length, brackets the whole member, and begins with the encoded key |
| `WriterModel.CloseCurrentContext` | JsonStreamWriter.py:153-164 | Returns false and changes nothing exactly when the stack is empty; otherwise pops exactly the top scope and appends its closing character |
| `WriterModel.ClosingText` | JsonStreamWriter.py:166-168 | The closing text of a stack has one character per open scope |
| `WriterModel.ClosingTextLifo` | JsonStreamWriter.py:166-168 | The i-th closing character belongs to the i-th scope counted from the top (last in, first out) |
| `WriterModel.Close` | JsonStreamWriter.py:166-172 | Ends with an empty stack and `closed` set, `held` unchanged, and the old output followed by the closing text of the old stack |
| `WriterModel.ClosingTextIsLifo` | JsonStreamWriter.py:166-168 | Every closing character belongs to the scope at the same distance from the top |
| `WriterModel.CloseWritesClosersLifo` | JsonStreamWriter.py:166-172 | `close` keeps the old output as a prefix, appends exactly one closing character per open scope from innermost to outermost, and appends nothing when no scope is open |
| `WriterModel.Enter` | JsonStreamWriter.py:33-36 | Allowed only when not held; afterwards the writer is held and nothing else changed |
| `WriterModel.Exit` | JsonStreamWriter.py:38-40 | Afterwards the writer is not held, closed, with an empty stack and the old stack's closing text appended |
| `WriterModel.Init` | JsonStreamWriter.py:25-31 | Construction leaves an empty output, an empty stack, and both flags false |
| `WriterModel.Step` | JsonStreamWriter.py:24-172 | One call of any operation: `closed`, once set, stays set and only `close`/`__exit__` change it; only `__enter__`/`__exit__` change `held`; at most one scope is pushed; on an empty stack nothing is written or pushed |
| `WriterModel.Run` | JsonStreamWriter.py:24-172 | A sequence of calls never clears `closed` and pushes at most one scope per call |
| `WriterModel.StepAppends` | JsonStreamWriter.py:24-172 | No single call removes or rewrites text already written |
| `WriterModel.RunAppends` | JsonStreamWriter.py:24-172 | After any sequence of calls, the earlier output is a prefix of the later output |
| `WriterModel.ArrayItemSpanStaysValid` | JsonStreamWriter.py:118-124 | After a successful array item, its returned span still brackets the encoded item after any later calls |
| `WriterModel.ObjectItemSpanStaysValid` | JsonStreamWriter.py:144-151 | After a successful object member, its returned span still brackets the whole member after any later calls |
| `WriterModel.ItemsRepeatTheTopSeparator` | JsonStreamWriter.py:114-123 | Two array items in a row are both preceded by the same separator, because the top scope's counter is never updated |
| `WriterModel.OpenThenClose` | JsonStreamWriter.py:56-65 | After opening a scope, the output ends with its opening character; closing it restores the stack and appends the matching closing character |
| `WriterModel.EmptyStackIsInert` | JsonStreamWriter.py:97-101 | From an empty stack, any sequence of calls leaves the output unchanged and the stack empty |
| `WriterModel.NoWriteAfterClose` | JsonStreamWriter.py:166-172 | After `close`, no sequence of calls writes anything or opens a scope |
| `WriterModel.ReachableWriterIsInert` | JsonStreamWriter.py:25-31 | In every state reachable from construction, stack and output are empty; getting the current context, opening any scope and adding any item fail with the no-current-context error; closing a scope returns false; `close` writes nothing |
| `StreamWriting.JsonStreamWriter.constructor` | JsonStreamWriter.py:25-31 | Runs the failing root open and ends in the state `Init` describes: empty output, empty stack, flags false |
| `StreamWriting.JsonStreamWriter.Write` | JsonStreamWriter.py:118-120 | Appends the text and reports its length as the number of characters written; `tell()` advances by exactly that count, and the output between the old and new `tell()` is the text, which is what makes the `tell() + 1` spans bracket what was written |
| `StreamWriting.JsonStreamWriter.Enter` | JsonStreamWriter.py:33-36 | Requires not held, returns the writer itself, and leaves the state `Enter` describes |
| `StreamWriting.JsonStreamWriter.Exit` | JsonStreamWriter.py:38-40 | Leaves the state `Exit` describes |
| `StreamWriting.JsonStreamWriter.AddArrayContext` | JsonStreamWriter.py:42-65 | New state and result are those of `OpenContext` for an array |
| `StreamWriting.JsonStreamWriter.AddObjectContext` | JsonStreamWriter.py:67-69 | Requires the empty stack, and behaves as `WriterModel.AddObjectContext`: always fails and changes nothing |
| `StreamWriting.JsonStreamWriter.AddObjectContextInternal` | JsonStreamWriter.py:71-95 | New state and result are those of `OpenContext` for an object |
| `StreamWriting.JsonStreamWriter.GetCurrentContext` | JsonStreamWriter.py:97-101 | Returns what `WriterModel.GetCurrentContext` gives for the current state, and changes nothing |
| `StreamWriting.JsonStreamWriter.AddArrayItem` | JsonStreamWriter.py:103-124 | New state and result are those of `WriterModel.AddArrayItem`, and on success the returned span brackets the encoded item in the output |
| `StreamWriting.JsonStreamWriter.AddObjectItem` | JsonStreamWriter.py:126-151 | New state and result are those of `WriterModel.AddObjectItem`, and on success the returned span brackets the member in the output |
| `StreamWriting.JsonStreamWriter.CloseCurrentContext` | JsonStreamWriter.py:153-164 | New state and result are those of `WriterModel.CloseCurrentContext` |
| `StreamWriting.JsonStreamWriter.Close` | JsonStreamWriter.py:166-172 | The loop empties the stack, sets `closed`, and appends the old stack's closing text; the state is that of `WriterModel.Close` |

## Left out

- Opening and closing the file (`open(filepath, 'w+')`, `self._file_obj.close()`) is I/O. The file is an append-only `out` buffer, and `tell()` is its length. Text-mode tell cookies do not apply to it.
- AddArrayItem, AddObjectItem: the encoder is total, so the case where `json.dumps` raises (`TypeError` on an unserializable value, `ValueError` on a circular one) after the `", "` separator is already written is not modelled. The model promises `Ok` and a clean span on every non-empty stack; the source would raise after a partial write. From construction the stack is always empty, so this path is never reached there.
- `json.dumps` is a foreign library. It is an arbitrary `Encoder`. No property of its output, and no JSON well-formedness of the finished document, is modelled.
- Python exceptions and the `result` library are replaced by the `Result` and `Outcome` datatypes with a two-case `Error`. A context-opening operation that succeeds returns Python's bare `None`, which is `Outcome.Pass`.
- The `assert`s in `__enter__` and `add_object_context` are `requires` on the class methods. In `Run`, a call whose assertion fails leaves the state unchanged, because the assertion raises before anything is modified.
- `__exit__`'s exception arguments and its falsy return value are not modelled. They have no effect on the writer's state.
- `copy.deepcopy` is datatype value semantics. The `Context` dataclass's default `items_inserted = 0` is written out at each push.
- There is no closed-state check in the code. After `close`, operations fail only because the stack is empty. The model captures exactly that (`NoWriteAfterClose`).
