# mm-errors, modelled in Dafny

A model of the `mm-errors` Rust crate. It has two parts.

- **The error chain** (`src/lib.rs`). An `Error` records the file and line of
  the call site that reported it, and a kind. The kind is either a plain
  message or an owned inner error. `format_xml` (behind `Display` and `Debug`)
  renders one level as
  `<error><file>F</file><line>L</line><reason>R</reason></error>`, with no
  whitespace and no escaping. `R` is the message verbatim, or the `Display` of
  the inner error, so a chain renders as nested levels. `description()` is a
  constant. `cause()` delegates to the inner error's own `cause()`. The macros
  `try_wrap!`, `new_error!`, `new_result!`, `try_opt!` and `try_opt_ref!`
  become total functions that take the call site's file and line as
  parameters. A result `Ok(x)` means "the macro evaluates to `x`". A result
  `Err(e)` means "the enclosing function returns `Err(e)`".
- **The `Oks` adapter** (`src/oks.rs`). It hands out every item of a source
  iterator as `Ok(item)`. The source iterator is a class over a finite
  sequence with a cursor (`SeqIter`). `Oks` is built over one and advances it
  on every `next`. After the hand-off every statement about the cursor is made
  through the adapter.

Files:

- `wrappers.dfy`: `Option` and `Result`.
- `decimal.dfy`: the decimal text `{}` prints for the `u32` line number, and
  its inverse.
- `errors.dfy` (module `MmErrors`): the error chain.
- `oks.dfy` (module `OksAdapter`): the adapter.

The boxed `dyn Error` inside `ErrorKind::Wrapped` is the datatype `Inner`. It
is either `Nested(e)`, an `Error` of this crate, or `Foreign(text, upstream)`.
A foreign error is known only by its `Display` text and by what its own
`cause()` returns. A parse error, or a `&str` converted with `Into`, is
a `Foreign` with no cause. The crate's alias `Result<T>` is written
`Result<T, Error>`.

`format_xml` is modelled twice. `Render` is the pure specification.
`FormatXml` is the sequence of writes to a `Formatter` that the crate
performs, and it is proved to append exactly `Render(e)`. `Unframe` reads one
level of markup back. It serves as the inverse against which the format is
proved exact, in both directions.

## Model

| member | source | states |
|---|---|---|
| `MmErrors.New` | src/lib.rs:210-216 | The error has the given file and line and kind `String(message)`. Its depth is 0 and it has no cause. It renders as one level whose reason is the message. |
| `MmErrors.Wrap` | src/lib.rs:228-235 | The error has the given file and line and holds the inner error unchanged. It renders as one level around the inner error's `Display`. Its cause is the inner error's cause. Wrapping an `Error` of this crate adds exactly one to the depth. |
| `MmErrors.Render` | src/lib.rs:237-254 | The pure `Display` text (also what `Display::fmt` at src/lib.rs:270-274 writes): one level of markup around `Reason(e)`. Its own contract says the text holds at least one `<error>` opening per level of the chain. Its exact text is specified by `FormatXml`, `UnframeRender`, `EnvelopeHoldsReason` and `RenderNests`. |
| `MmErrors.Reason` | src/lib.rs:243-252 | What goes between `<reason>` and `</reason>`: the message, or the inner error's `Display`. Its own contract says a nested reason holds at least one `<error>` opening per level below. Its text is specified by `RenderNests` and `RenderForgetsKind`. |
| `MmErrors.InnerDisplay` | src/lib.rs:249 | The `Display` of the boxed inner error. Its own contract says a nested error's text holds at least one `<error>` opening per level of that error. Its exact text is specified by `InnerFmt` and `RenderNests`. |
| `MmErrors.Cause` | src/lib.rs:262-267 | `cause()` is `None` for a message. Whatever it returns is strictly smaller than the error asked. Its value is specified by `CauseFromInnermost`, `CauseIsNotInner`, `ChainHasNoCause` and `ForeignChainCause`. |
| `MmErrors.InnerCause` | src/lib.rs:265 | `cause()` of the boxed inner error, by dispatch, is strictly smaller than that inner error. Its value is specified by `CauseFromInnermost` and `CauseIsNotInner`. |
| `MmErrors.FormatXml` | src/lib.rs:237-254 | The eight writes append exactly `Render(e)` to the formatter. For a wrapped error, the inner error is written through its own `Display` between `<reason>` and `</reason>`. |
| `MmErrors.InnerFmt` | src/lib.rs:248-251 | Writing the inner error appends its `Display`: the full rendering of a nested error, or a foreign error's text. |
| `MmErrors.DisplayFmt` | src/lib.rs:270-274 | `Display` appends the same text as `format_xml`. |
| `MmErrors.DebugFmt` | src/lib.rs:195-199 | `Debug` appends exactly the `Display` text. |
| `MmErrors.UnframeEnvelope` | src/lib.rs:237-254 | One rendered level reads back as its file, line and reason, provided the file has no '<'. The reason can be any text, with no escaping. |
| `MmErrors.EnvelopeUnframe` | src/lib.rs:237-254 | Any text the reader accepts is exactly the rendering of the file, line and reason it returns. The format has no other spelling: no whitespace, no padding, no leading zeros. |
| `MmErrors.UnframeRender` | src/lib.rs:237-254 | Reading the outermost level of an error's rendering gives back its file, its line and its reason, provided the file has no '<'. |
| `MmErrors.EnvelopeHoldsReason` | src/lib.rs:245-253 | The reason is written verbatim, unescaped, at a fixed offset after the file and line fields. |
| `MmErrors.RenderNests` | src/lib.rs:248-253 | When an `Error` is wrapped, its full rendering appears verbatim inside the outer `<reason>`, at a fixed offset. |
| `MmErrors.RenderForgetsKind` | src/lib.rs:243-252 | Wrapping an inner error renders the same as a message equal to that error's `Display`. The markup does not record which kind produced the reason. |
| `MmErrors.EnvelopeOpenings` | src/lib.rs:237-254 | One level adds exactly one `<error>` opening to those in its file name and its reason. |
| `MmErrors.OpeningsConcat` | src/lib.rs:238-253 | An `<error>` opening cannot straddle a seam where the left part ends in '>' or the right part starts with '<'. Every seam between a tag and a field is such a seam. |
| `MmErrors.WrapAllOpenings` | src/lib.rs:248-253 | Each wrap adds exactly one `<error>` opening to the rendering, provided no file name contains one. |
| `MmErrors.ChainShape` | src/lib.rs:15-60 | A chain of n wraps around a message renders with exactly n+1 `<error>` openings. It has depth n. Its innermost error is the original leaf holding the message. |
| `MmErrors.WrapAllDepth` | src/lib.rs:228-235 | Wrapping at k sites adds exactly k to the depth. |
| `MmErrors.WrapAllInnermost` | src/lib.rs:228-235 | Wrapping never changes the innermost error of the chain. |
| `MmErrors.Description` | src/lib.rs:258-260 | `description()` is "font processing error" for every error, whatever its kind. |
| `MmErrors.CauseFromInnermost` | src/lib.rs:262-267 | `cause()` passes through every nested level. It is `None` when the innermost error is a message. Otherwise it is the foreign error's own cause. |
| `MmErrors.CauseIsNotInner` | src/lib.rs:262-267 | `cause()` of a wrapping error equals the inner error's `cause()`. It is never the inner error itself. |
| `MmErrors.ChainHasNoCause` | src/lib.rs:262-267 | A chain built only from a message and wraps has no cause at any level. |
| `MmErrors.ForeignChainCause` | src/lib.rs:262-267 | A chain over a foreign error reports that foreign error's cause from every level. |
| `MmErrors.TryWrap` | src/lib.rs:310-317 | `Ok(x)` yields `x`. `Err(e)` returns an error at the call site that holds `e` unchanged as its inner error. |
| `MmErrors.Boxed` | src/lib.rs:314 | Converting an `Error` of this crate into the boxed inner error keeps a success and nests a failure. |
| `MmErrors.Propagate` | src/lib.rs:20-28 | Through k levels of `try_wrap!`, a success comes out unchanged. A failure comes out wrapped once per level, innermost site first. |
| `MmErrors.NewError` | src/lib.rs:321-325 | `new_error!` is `Error::new` at the call site. It renders with the message as its reason. |
| `MmErrors.NewResult` | src/lib.rs:361-365 | `new_result!` is always a failure. Its error is a leaf at the call site holding the message, with no nesting. |
| `MmErrors.TryOpt` | src/lib.rs:402-409 | `Some(x)` yields `x`. `None` returns a leaf error at the call site holding the message. |
| `MmErrors.TryOptRef` | src/lib.rs:411-419 | `Some(x)` yields the held value. `None` returns a leaf error at the call site holding the message. |
| `MmErrors.ParseFailureExample` | src/lib.rs:15-60 | A parse failure propagated through three functions renders as three nested levels. Each reason is the rendering of the level below. The innermost reason is "invalid digit found in string". |
| `MmErrors.StackUnderflowExample` | src/lib.rs:73-119 | `try_opt!` on an empty stack, propagated twice, renders as three levels. The innermost error is the leaf "Stack underflow!". |
| `MmErrors.NewResultExample` | src/lib.rs:133-156 | `new_result!` renders as a single level whose reason is the message. |
| `Decimal.Show` | src/lib.rs:241 | The line number prints as a non-empty digit string with no leading zero, except for "0" itself. |
| `Decimal.ParseShow` | src/lib.rs:241 | Reading back the printed line number gives the number. |
| `Decimal.ShowParse` | src/lib.rs:241 | Every canonical digit string is the printing of its value, so printing is a bijection onto canonical digit strings. |
| `OksAdapter.Oks.constructor` | src/oks.rs:43-47 | `oks()` takes the source as it is, without advancing it. The adapter's remaining output is its remaining items, each tagged `Ok`. |
| `OksAdapter.Oks.Next` | src/oks.rs:17-22 | `next` returns `Some(Ok(x))` exactly when the source has a next item `x`, and `None` exactly when the source is exhausted. It never returns `Err`. The source cursor moves by exactly one, and only the source changes. |
| `OksAdapter.Oks.Clone` | src/oks.rs:25-31 | A clone is a fresh adapter over a fresh copy of the source, at the same cursor, with the same remaining output. |
| `OksAdapter.AllOkAt` | src/oks.rs:19 | Item i of the adapter's output is `Ok` of item i of its source. |
| `OksAdapter.EnumerateOks` | src/oks.rs:58-63 | Driving `oks().enumerate()` to the end gives exactly one pair per source item, in order: `(i, Ok(source[i]))`. |
| `OksAdapter.OksTest` | src/oks.rs:56-63 | Over `[0, 1, 2, 3]` there are four items, each `Ok` of its own index. |
| `OksAdapter.CloneReplays` | src/oks.rs:25-31 | After k items, a clone yields exactly what the original goes on to yield, `Ok(source[k + i])` for each i. Draining the original does not disturb the clone. |

## Left out

- `file!()` and `line!()` capture: a compile-time feature. File and line are explicit parameters of every constructor and macro.
- `Send` and `Sync` bounds: thread-safety guarantees, not behaviour.
- Dynamic dispatch over arbitrary `dyn Error` types, and the `Into<Box<dyn Error>>` conversion: an inner error is either this crate's `Error` or a foreign error given by its display text and its optional cause. A foreign error's other methods (`description()`, `Debug`) are not modelled.
- `fmt::Formatter` write failures propagated by `?`: the formatter is an infallible text accumulator.
- The derived `Debug` output of `ErrorKind` and `Oks`: library formatting.
- The indented XML in the doc comments: the real output has no whitespace. The doc examples' line numbers are doctest-relative, and the example lemmas use the numbers and the `src\lib.rs` file name printed there.
- The move of the source iterator into `oks()`: Rust's ownership forbids using the iterator after the hand-off, but a Dafny caller may keep a reference to it. The model does not enforce the move; its own methods make every later statement through `Oks.source`.
- The generic `Iterator` trait: the source is a finite sequence with a cursor. Infinite sources and sources without `Clone` are not modelled.
- `MmErrors.TryOptRef`: it yields the held value, not a reference into the `Option`. Values are immutable here, so the borrow is not observable.
- `MmErrors.ChainShape`: the opening count assumes that neither the message nor any file name contains `<error>`. Messages are emitted unescaped, so an opening inside a message would be counted too.
- `MmErrors.UnframeEnvelope`: the round trip assumes the file name contains no '<'. The file field is not escaped either, so such a name cannot be told apart from the closing tag.
