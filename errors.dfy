/** The error chain of `src/lib.rs`: an immutable record of where an error was
    reported and why, its XML rendering, its `std::error::Error` observers and
    the propagation macros, with the call site's file and line made explicit. */
module MmErrors {
  import opened Wrappers
  import Decimal

  newtype u32 = x: int | 0 <= x < 0x1_0000_0000

  /** `Error { file, line, kind }`. */
  datatype Error = Error(file: string, line: u32, kind: ErrorKind)

  /** `ErrorKind`: a plain message, or an owned inner error. */
  datatype ErrorKind = String(message: string) | Wrapped(inner: Inner)

  /** The boxed `dyn Error` held by `ErrorKind::Wrapped`: either an `Error` of
      this crate, or a foreign error known only by its `Display` text and by
      what its own `cause()` returns. */
  datatype Inner = Nested(error: Error) | Foreign(text: string, upstream: Option<Inner>)

  /** A call site of one of the macros: what `file!()` and `line!()` expand to. */
  datatype Site = Site(file: string, line: u32)

  // ---------------------------------------------------------------------------
  // Sizes and shape of a chain

  function Size(e: Error): nat
    decreases e
  {
    match e.kind
    case String(_) => 1
    case Wrapped(i) => 1 + InnerSize(i)
  }

  function InnerSize(i: Inner): nat
    decreases i
  {
    match i
    case Nested(e) => 1 + Size(e)
    case Foreign(_, None) => 1
    case Foreign(_, Some(c)) => 1 + InnerSize(c)
  }

  /** How many errors of this crate sit below `e` in its chain. */
  function Depth(e: Error): nat
    decreases e
  {
    match e.kind
    case Wrapped(Nested(x)) => 1 + Depth(x)
    case _ => 0
  }

  /** The last error of this crate in `e`'s chain: its kind is a message or a foreign error. */
  function Innermost(e: Error): (r: Error)
    ensures !(r.kind.Wrapped? && r.kind.inner.Nested?)
    decreases e
  {
    match e.kind
    case Wrapped(Nested(x)) => Innermost(x)
    case _ => e
  }

  // ---------------------------------------------------------------------------
  // Constructors

  /** `Error::new(message, file, line)`: a leaf error carrying the message. */
  function New(message: string, file: string, line: u32): (e: Error)
    ensures e.file == file && e.line == line && e.kind == String(message)
    ensures Render(e) == Envelope(file, line, message)
    ensures Depth(e) == 0 && Cause(e) == None
  {
    Error(file, line, String(message))
  }

  /** `Error::wrap(inner, file, line)`: an error owning `inner`, unchanged. */
  function Wrap(inner: Inner, file: string, line: u32): (e: Error)
    ensures e.file == file && e.line == line && e.kind == Wrapped(inner)
    ensures Render(e) == Envelope(file, line, InnerDisplay(inner))
    ensures Cause(e) == InnerCause(inner)
    ensures inner.Nested? ==> Depth(e) == Depth(inner.error) + 1
    ensures inner.Foreign? ==> Depth(e) == 0
  {
    Error(file, line, Wrapped(inner))
  }

  // ---------------------------------------------------------------------------
  // Rendering (`format_xml`, `Display`, `Debug`)

  const HeadTag: string := "<error>" + "<file>"
  const FileLineTag: string := "</file>" + "<line>"
  const LineReasonTag: string := "</line>" + "<reason>"
  const TailTag: string := "</reason>" + "</error>"

  /** One level of the markup, around a reason text already rendered:
      `<error><file>F</file><line>L</line><reason>R</reason></error>`, no whitespace. */
  function Envelope(file: string, line: u32, reason: string): string {
    HeadTag + (file + (FileLineTag + (Decimal.Show(line as int) + (LineReasonTag + (reason + TailTag)))))
  }

  /** `Display for Error`, i.e. `format_xml`: one level of markup around the
      reason. It holds at least one `<error>` opening per level of the chain. */
  function Render(e: Error): (r: string)
    ensures Openings(r) >= Depth(e) + 1
    decreases Size(e), 1
  {
    EnvelopeOpenings(e.file, e.line, Reason(e));
    Envelope(e.file, e.line, Reason(e))
  }

  /** What `format_xml` writes between `<reason>` and `</reason>`: the message
      verbatim, or the `Display` of the inner error. */
  function Reason(e: Error): (r: string)
    ensures e.kind.Wrapped? && e.kind.inner.Nested? ==> Openings(r) >= Depth(e)
    decreases Size(e), 0
  {
    match e.kind
    case String(m) => m
    case Wrapped(i) => InnerDisplay(i)
  }

  /** `Display` of the boxed inner error: a nested error renders as markup,
      a foreign error as its own text. */
  function InnerDisplay(i: Inner): (r: string)
    ensures i.Nested? ==> Openings(r) >= Depth(i.error) + 1
    decreases InnerSize(i), 2
  {
    match i
    case Nested(e) => Render(e)
    case Foreign(t, _) => t
  }

  // ---------------------------------------------------------------------------
  // `std::error::Error` observers

  const FontProcessingError: string := "font processing error"

  /** `description()`: one constant for every error. */
  function Description(e: Error): (d: string)
    ensures d == FontProcessingError
  {
    FontProcessingError
  }

  /** `cause()`: nothing for a message; for a wrapped error, whatever the inner
      error's own `cause()` returns, which is always strictly smaller than `e`. */
  function Cause(e: Error): (c: Option<Inner>)
    ensures e.kind.String? ==> c == None
    ensures c.Some? ==> InnerSize(c.value) < Size(e)
    decreases e
  {
    match e.kind
    case String(_) => None
    case Wrapped(i) => InnerCause(i)
  }

  /** `cause()` of the boxed inner error, by dynamic dispatch: strictly smaller
      than the inner error. */
  function InnerCause(i: Inner): (c: Option<Inner>)
    ensures c.Some? ==> InnerSize(c.value) < InnerSize(i)
    decreases i
  {
    match i
    case Nested(x) => Cause(x)
    case Foreign(_, c) => c
  }

  // ---------------------------------------------------------------------------
  // The macros, with the call site passed in. A result `Ok(x)` means the macro
  // evaluates to `x`; a result `Err(e)` means the enclosing function returns `Err(e)`.

  /** `try_wrap!(exp)`. */
  function TryWrap<T>(r: Result<T, Inner>, file: string, line: u32): (o: Result<T, Error>)
    ensures o.Ok? <==> r.Ok?
    ensures r.Ok? ==> o.value == r.value
    ensures r.Err? ==> o.error.file == file && o.error.line == line && o.error.kind == Wrapped(r.error)
  {
    match r
    case Ok(x) => Ok(x)
    case Err(e) => Err(Wrap(e, file, line))
  }

  /** `new_error!(message)`. */
  function NewError(message: string, file: string, line: u32): (e: Error)
    ensures e == New(message, file, line)
    ensures Render(e) == Envelope(file, line, message)
  {
    New(message, file, line)
  }

  /** `new_result!(message)`: always a failure, with a leaf error. */
  function NewResult<T>(message: string, file: string, line: u32): (r: Result<T, Error>)
    ensures r.Err? && r.error == New(message, file, line)
    ensures Depth(r.error) == 0 && Render(r.error) == Envelope(file, line, message)
  {
    Err(NewError(message, file, line))
  }

  /** `try_opt!(exp, message)`. */
  function TryOpt<T>(o: Option<T>, message: string, file: string, line: u32): (r: Result<T, Error>)
    ensures r.Ok? <==> o.Some?
    ensures o.Some? ==> r.value == o.value
    ensures o.None? ==> r.error == New(message, file, line)
  {
    match o
    case Some(x) => Ok(x)
    case None => Err(New(message, file, line))
  }

  /** `try_opt_ref!(exp, message)`: as `try_opt!`, yielding the held value by reference. */
  function TryOptRef<T>(o: Option<T>, message: string, file: string, line: u32): (r: Result<T, Error>)
    ensures r.Ok? <==> o.Some?
    ensures o.Some? ==> r.value == o.value
    ensures o.None? ==> r.error.kind == String(message) && r.error.file == file && r.error.line == line
  {
    match o
    case Some(x) => Ok(x)
    case None => Err(New(message, file, line))
  }

  /** The `Into<Box<dyn Error>>` conversion `try_wrap!` applies to an `Error` of this crate. */
  function Boxed<T>(r: Result<T, Error>): (b: Result<T, Inner>)
    ensures b.Ok? <==> r.Ok?
    ensures r.Ok? ==> b.value == r.value
    ensures r.Err? ==> b.error == Nested(r.error)
  {
    match r
    case Ok(x) => Ok(x)
    case Err(e) => Err(Nested(e))
  }

  /** `e` wrapped at `sites[0]`, then at `sites[1]`, and so on outwards. */
  function WrapAll(e: Error, sites: seq<Site>): Error
    decreases |sites|
  {
    if sites == [] then e
    else
      var last := sites[|sites| - 1];
      Wrap(Nested(WrapAll(e, sites[..|sites| - 1])), last.file, last.line)
  }

  /** A stack of functions, each `let v = try_wrap!(callee()); Ok(v)` at its own
      site, the innermost callee returning `r`: a success comes out unchanged,
      a failure comes out wrapped once per level. */
  function Propagate<T>(r: Result<T, Error>, sites: seq<Site>): (o: Result<T, Error>)
    ensures r.Ok? ==> o == r
    ensures r.Err? ==> o == Err(WrapAll(r.error, sites))
    decreases |sites|
  {
    if sites == [] then r
    else
      var last := sites[|sites| - 1];
      TryWrap(Boxed(Propagate(r, sites[..|sites| - 1])), last.file, last.line)
  }

  // ---------------------------------------------------------------------------
  // Properties of a chain

  /** Wrapping adds exactly one level per site. */
  lemma {:induction false} WrapAllDepth(e: Error, sites: seq<Site>)
    ensures Depth(WrapAll(e, sites)) == Depth(e) + |sites|
    decreases |sites|
  {
    if sites != [] {
      WrapAllDepth(e, sites[..|sites| - 1]);
    }
  }

  /** Wrapping never changes what lies at the bottom of the chain. */
  lemma {:induction false} WrapAllInnermost(e: Error, sites: seq<Site>)
    ensures Innermost(WrapAll(e, sites)) == Innermost(e)
    decreases |sites|
  {
    if sites != [] {
      WrapAllInnermost(e, sites[..|sites| - 1]);
    }
  }

  /** `cause()` walks down every `Nested` link without stopping: it is decided by the
      innermost error of this crate alone, `None` for a message and the foreign
      error's own cause otherwise. */
  lemma {:induction false} CauseFromInnermost(e: Error)
    ensures Cause(e) == (if Innermost(e).kind.String? then None else Innermost(e).kind.inner.upstream)
    decreases e
  {
    match e.kind
    case String(_) =>
    case Wrapped(Nested(x)) => CauseFromInnermost(x);
    case Wrapped(Foreign(_, _)) =>
  }

  /** `cause()` of a wrapping error delegates to the inner error's `cause()`: it is
      never the inner error itself. */
  lemma CauseIsNotInner(x: Error, file: string, line: u32)
    ensures Cause(Wrap(Nested(x), file, line)) == Cause(x)
    ensures Cause(Wrap(Nested(x), file, line)) != Some(Nested(x))
  {
  }

  /** A chain built only from this crate's messages and wraps has no cause at any level. */
  lemma ChainHasNoCause(m: string, origin: Site, sites: seq<Site>)
    ensures Cause(WrapAll(New(m, origin.file, origin.line), sites)) == None
  {
    WrapAllInnermost(New(m, origin.file, origin.line), sites);
    CauseFromInnermost(WrapAll(New(m, origin.file, origin.line), sites));
  }

  /** A chain over a foreign error reports that foreign error's cause, from every level. */
  lemma ForeignChainCause(text: string, upstream: Option<Inner>, origin: Site, sites: seq<Site>)
    ensures Cause(WrapAll(Wrap(Foreign(text, upstream), origin.file, origin.line), sites)) == upstream
  {
    var bottom := Wrap(Foreign(text, upstream), origin.file, origin.line);
    WrapAllInnermost(bottom, sites);
    CauseFromInnermost(WrapAll(bottom, sites));
  }

  // ---------------------------------------------------------------------------
  // Shape of the rendering

  /** Offset of the reason inside one level of markup. */
  function ReasonOffset(file: string, line: u32): nat {
    |HeadTag| + |file| + |FileLineTag| + |Decimal.Show(line as int)| + |LineReasonTag|
  }

  /** The reason sits verbatim at its offset inside one level of markup. */
  lemma EnvelopeHoldsReason(file: string, line: u32, reason: string)
    ensures var at := ReasonOffset(file, line);
      at + |reason| <= |Envelope(file, line, reason)| && Envelope(file, line, reason)[at..at + |reason|] == reason
  {
    var g := Decimal.Show(line as int);
    var x0 := reason + TailTag;
    var p1 := HeadTag + file;
    var p2 := p1 + FileLineTag;
    var p3 := p2 + g;
    var p4 := p3 + LineReasonTag;
    AppendAssoc(HeadTag, file, FileLineTag + (g + (LineReasonTag + x0)));
    AppendAssoc(p1, FileLineTag, g + (LineReasonTag + x0));
    AppendAssoc(p2, g, LineReasonTag + x0);
    AppendAssoc(p3, LineReasonTag, x0);
    assert Envelope(file, line, reason) == p4 + x0;
    assert (p4 + x0)[|p4|..|p4| + |reason|] == reason;
  }

  /** Wrapping one of this crate's errors renders that error verbatim inside `<reason>`. */
  lemma RenderNests(x: Error, file: string, line: u32)
    ensures var outer := Render(Wrap(Nested(x), file, line));
      var at := ReasonOffset(file, line);
      at + |Render(x)| <= |outer| && outer[at..at + |Render(x)|] == Render(x)
  {
    EnvelopeHoldsReason(file, line, Render(x));
  }

  /** The markup does not record which kind produced the reason: wrapping an inner
      error renders exactly as a message equal to that inner error's `Display`. */
  lemma RenderForgetsKind(i: Inner, file: string, line: u32)
    ensures Render(Wrap(i, file, line)) == Render(New(InnerDisplay(i), file, line))
  {
  }

  const Opening: string := "<error>"

  /** Number of positions in `s` where an `<error>` opening tag starts. */
  function Openings(s: string): nat
    decreases |s|
  {
    if s == [] then 0 else (if Opening <= s then 1 else 0) + Openings(s[1..])
  }

  lemma {:induction false} NoLtNoOpenings(s: string)
    requires forall i :: 0 <= i < |s| ==> s[i] != '<'
    ensures Openings(s) == 0
    decreases |s|
  {
    if s != [] {
      assert s[0] != Opening[0];
      NoLtNoOpenings(s[1..]);
    }
  }

  /** A tag other than `<error>`, whose only '<' is its first character. */
  lemma OtherTag(s: string)
    requires |s| >= 1 && s[0] == '<' && (forall i :: 1 <= i < |s| ==> s[i] != '<')
    requires |s| >= 2 && s[1] != Opening[1]
    ensures Openings(s) == 0
  {
    NoLtNoOpenings(s[1..]);
  }

  /** Counting openings splits at a boundary no opening can straddle: `<error>`
      has its only '<' first and its only '>' last. */
  lemma {:induction false} OpeningsConcat(a: string, b: string)
    requires a == [] || a[|a| - 1] == '>' || b == [] || b[0] == '<'
    ensures Openings(a + b) == Openings(a) + Openings(b)
    decreases |a|
  {
    if a == [] {
      assert a + b == b;
    } else if b == [] {
      assert a + b == a;
    } else {
      assert (a + b)[1..] == a[1..] + b;
      OpeningsConcat(a[1..], b);
      if |a| >= |Opening| {
        assert (a + b)[..|Opening|] == a[..|Opening|];
      } else if a[|a| - 1] == '>' {
        assert (a + b)[|a| - 1] == '>' != Opening[|a| - 1];
      } else {
        assert (a + b)[|a|] == '<' != Opening[|a|];
      }
    }
  }

  lemma HeadTagOpenings()
    ensures Openings(HeadTag) == 1
  {
    NoLtNoOpenings("error>");
    assert Openings(Opening) == 1;
    OtherTag("<file>");
    OpeningsConcat(Opening, "<file>");
  }

  lemma FileLineTagOpenings()
    ensures Openings(FileLineTag) == 0
  {
    OtherTag("</file>");
    OtherTag("<line>");
    OpeningsConcat("</file>", "<line>");
  }

  lemma LineReasonTagOpenings()
    ensures Openings(LineReasonTag) == 0
  {
    OtherTag("</line>");
    OtherTag("<reason>");
    OpeningsConcat("</line>", "<reason>");
  }

  lemma TailTagOpenings()
    ensures Openings(TailTag) == 0
  {
    OtherTag("</reason>");
    OtherTag("</error>");
    OpeningsConcat("</reason>", "</error>");
  }

  /** One level of markup holds one opening of its own. */
  lemma EnvelopeOpenings(file: string, line: u32, reason: string)
    ensures Openings(Envelope(file, line, reason)) == 1 + Openings(file) + Openings(reason)
  {
    var digits := Decimal.Show(line as int);
    NoLtNoOpenings(digits);
    HeadTagOpenings();
    FileLineTagOpenings();
    LineReasonTagOpenings();
    TailTagOpenings();
    var s5 := reason + TailTag;
    OpeningsConcat(reason, TailTag);
    var s4 := LineReasonTag + s5;
    OpeningsConcat(LineReasonTag, s5);
    var s3 := digits + s4;
    OpeningsConcat(digits, s4);
    var s2 := FileLineTag + s3;
    OpeningsConcat(FileLineTag, s3);
    var s1 := file + s2;
    OpeningsConcat(file, s2);
    OpeningsConcat(HeadTag, s1);
  }

  /** Each wrap adds exactly one `<error>` opening, provided no call site's file
      name itself contains one. */
  lemma {:induction false} WrapAllOpenings(e: Error, sites: seq<Site>)
    requires forall i :: 0 <= i < |sites| ==> Openings(sites[i].file) == 0
    ensures Openings(Render(WrapAll(e, sites))) == Openings(Render(e)) + |sites|
    decreases |sites|
  {
    if sites != [] {
      var last := sites[|sites| - 1];
      var inner := WrapAll(e, sites[..|sites| - 1]);
      WrapAllOpenings(e, sites[..|sites| - 1]);
      EnvelopeOpenings(last.file, last.line, Render(inner));
    }
  }

  /** A chain of `|sites|` wraps around a message renders with exactly
      `|sites| + 1` openings, and its innermost level holds the message. */
  lemma ChainShape(m: string, origin: Site, sites: seq<Site>)
    requires Openings(m) == 0 && Openings(origin.file) == 0
    requires forall i :: 0 <= i < |sites| ==> Openings(sites[i].file) == 0
    ensures Openings(Render(WrapAll(New(m, origin.file, origin.line), sites))) == |sites| + 1
    ensures Depth(WrapAll(New(m, origin.file, origin.line), sites)) == |sites|
    ensures Innermost(WrapAll(New(m, origin.file, origin.line), sites)) == New(m, origin.file, origin.line)
  {
    var leaf := New(m, origin.file, origin.line);
    EnvelopeOpenings(origin.file, origin.line, m);
    WrapAllOpenings(leaf, sites);
    WrapAllDepth(leaf, sites);
    WrapAllInnermost(leaf, sites);
  }

  // ---------------------------------------------------------------------------
  // The crate's documented examples

  /** A parse failure wrapped where it happens and propagated by two callers:
      three nested levels, each reason the full rendering of the level below,
      the innermost reason being the parse error's text. */
  lemma ParseFailureExample()
    ensures
      var level1 := TryWrap<nat>(Err(Foreign("invalid digit found in string", None)), "src\\lib.rs", 10);
      var level2 := TryWrap(Boxed(level1), "src\\lib.rs", 15);
      var level3 := TryWrap(Boxed(level2), "src\\lib.rs", 20);
      level1.Err? && level2.Err? && level3.Err? &&
      Render(level1.error) == Envelope("src\\lib.rs", 10, "invalid digit found in string") &&
      Render(level2.error) == Envelope("src\\lib.rs", 15, Render(level1.error)) &&
      Render(level3.error) == Envelope("src\\lib.rs", 20, Render(level2.error)) &&
      Depth(level3.error) == 2 && Cause(level3.error) == None &&
      Decimal.Show(10) == "10" && Decimal.Show(15) == "15" && Decimal.Show(20) == "20"
  {
    assert Decimal.Show(10) == "10" && Decimal.Show(15) == "15" && Decimal.Show(20) == "20";
    var leaf := Foreign("invalid digit found in string", None);
    var e1 := Wrap(leaf, "src\\lib.rs", 10);
    var e2 := Wrap(Nested(e1), "src\\lib.rs", 15);
    var e3 := Wrap(Nested(e2), "src\\lib.rs", 20);
    assert TryWrap<nat>(Err(leaf), "src\\lib.rs", 10) == Err(e1);
    assert TryWrap(Boxed<nat>(Err(e1)), "src\\lib.rs", 15) == Err(e2);
    assert TryWrap(Boxed<nat>(Err(e2)), "src\\lib.rs", 20) == Err(e3);
    assert Reason(e1) == "invalid digit found in string";
    assert Reason(e2) == Render(e1);
    assert Reason(e3) == Render(e2);
  }

  /** `try_opt!` on an empty stack, propagated by two callers. */
  lemma StackUnderflowExample()
    ensures
      var level1 := TryOpt<nat>(None, "Stack underflow!", "src\\lib.rs", 11);
      var level2 := TryWrap(Boxed(level1), "src\\lib.rs", 16);
      var level3 := TryWrap(Boxed(level2), "src\\lib.rs", 21);
      level1.Err? && level2.Err? && level3.Err? &&
      Render(level1.error) == Envelope("src\\lib.rs", 11, "Stack underflow!") &&
      Render(level2.error) == Envelope("src\\lib.rs", 16, Render(level1.error)) &&
      Render(level3.error) == Envelope("src\\lib.rs", 21, Render(level2.error)) &&
      Innermost(level3.error) == New("Stack underflow!", "src\\lib.rs", 11) &&
      Decimal.Show(11) == "11" && Decimal.Show(16) == "16" && Decimal.Show(21) == "21"
  {
    assert Decimal.Show(11) == "11" && Decimal.Show(16) == "16" && Decimal.Show(21) == "21";
    var e1 := New("Stack underflow!", "src\\lib.rs", 11);
    var e2 := Wrap(Nested(e1), "src\\lib.rs", 16);
    var e3 := Wrap(Nested(e2), "src\\lib.rs", 21);
    assert TryOpt<nat>(None, "Stack underflow!", "src\\lib.rs", 11) == Err(e1);
    assert TryWrap(Boxed<nat>(Err(e1)), "src\\lib.rs", 16) == Err(e2);
    assert TryWrap(Boxed<nat>(Err(e2)), "src\\lib.rs", 21) == Err(e3);
    assert Reason(e1) == "Stack underflow!";
    assert Reason(e2) == Render(e1);
    assert Reason(e3) == Render(e2);
  }

  /** `new_result!` gives one level whose reason is the message. */
  lemma NewResultExample()
    ensures
      var r := NewResult<nat>("This function always returns error", "src\\lib.rs", 10);
      r.Err? && Depth(r.error) == 0 &&
      Render(r.error) == Envelope("src\\lib.rs", 10, "This function always returns error")
  {
  }

  // ---------------------------------------------------------------------------
  // Reading one level of markup back

  /** The three fields of one level of markup. */
  datatype Frame = Frame(file: string, line: u32, reason: string)

  /** Index of the first '<' in `s`, or `|s|` when there is none. */
  function FirstLt(s: string): (k: nat)
    ensures k <= |s|
    ensures forall i :: 0 <= i < k ==> s[i] != '<'
    ensures k < |s| ==> s[k] == '<'
    decreases |s|
  {
    if s == [] || s[0] == '<' then 0 else 1 + FirstLt(s[1..])
  }

  /** `s` without its prefix `p`, if it has that prefix. */
  function StripPrefix(p: string, s: string): (r: Option<string>)
    ensures r.Some? <==> p <= s
    ensures r.Some? ==> s == p + r.value
  {
    if p <= s then
      assert s == s[..|p|] + s[|p|..];
      Some(s[|p|..])
    else None
  }

  /** `s` without its suffix `t`, if it has that suffix. */
  function StripSuffix(t: string, s: string): (r: Option<string>)
    ensures r.Some? <==> |t| <= |s| && s[|s| - |t|..] == t
    ensures r.Some? ==> s == r.value + t
  {
    if |t| <= |s| && s[|s| - |t|..] == t then
      assert s == s[..|s| - |t|] + s[|s| - |t|..];
      Some(s[..|s| - |t|])
    else None
  }

  /** The file field and what follows its closing tag: the file runs to the first '<'. */
  function ReadFile(t: string): (r: Option<(string, string)>)
    ensures r.Some? ==> t == r.value.0 + (FileLineTag + r.value.1)
    ensures r.Some? ==> forall i :: 0 <= i < |r.value.0| ==> r.value.0[i] != '<'
  {
    var file := t[..FirstLt(t)];
    assert t == file + t[|file|..];
    var rest :- StripPrefix(FileLineTag, t[|file|..]);
    Some((file, rest))
  }

  /** The line field and what follows its closing tag: a canonical decimal that fits in 32 bits. */
  function ReadLine(t: string): (r: Option<(u32, string)>)
    ensures r.Some? ==> t == Decimal.Show(r.value.0 as int) + (LineReasonTag + r.value.1)
  {
    var digits := t[..FirstLt(t)];
    assert t == digits + t[|digits|..];
    var rest :- StripPrefix(LineReasonTag, t[|digits|..]);
    if Decimal.Canonical(digits) && Decimal.Parse(digits) < 0x1_0000_0000 then
      Decimal.ShowParse(digits);
      Some((Decimal.Parse(digits) as u32, rest))
    else None
  }

  /** Splits one level of markup into its file, line and reason; the reason is
      everything up to the final closing tags. */
  function Unframe(s: string): Option<Frame> {
    var afterHead :- StripPrefix(HeadTag, s);
    var fileAndRest :- ReadFile(afterHead);
    var lineAndRest :- ReadLine(fileAndRest.1);
    var reason :- StripSuffix(TailTag, lineAndRest.1);
    Some(Frame(fileAndRest.0, lineAndRest.0, reason))
  }

  lemma StripPrefixOf(p: string, r: string)
    ensures StripPrefix(p, p + r) == Some(r)
  {
    assert (p + r)[..|p|] == p;
    assert (p + r)[|p|..] == r;
  }

  lemma StripSuffixOf(t: string, r: string)
    ensures StripSuffix(t, r + t) == Some(r)
  {
    assert (r + t)[|r|..] == t;
    assert (r + t)[..|r|] == r;
  }

  /** The text before the first '<' of `a + b`, when `a` holds none and `b` starts with one. */
  lemma FirstLtAt(a: string, b: string)
    requires forall i :: 0 <= i < |a| ==> a[i] != '<'
    requires |b| >= 1 && b[0] == '<'
    ensures FirstLt(a + b) == |a|
    ensures (a + b)[..|a|] == a && (a + b)[|a|..] == b
  {
    assert forall i :: 0 <= i < |a| ==> (a + b)[i] == a[i];
    assert (a + b)[|a|] == '<';
  }

  lemma ReadFileOf(file: string, rest: string)
    requires forall i :: 0 <= i < |file| ==> file[i] != '<'
    ensures ReadFile(file + (FileLineTag + rest)) == Some((file, rest))
  {
    FirstLtAt(file, FileLineTag + rest);
    StripPrefixOf(FileLineTag, rest);
  }

  lemma ReadLineOf(line: u32, rest: string)
    ensures ReadLine(Decimal.Show(line as int) + (LineReasonTag + rest)) == Some((line, rest))
  {
    var digits := Decimal.Show(line as int);
    FirstLtAt(digits, LineReasonTag + rest);
    StripPrefixOf(LineReasonTag, rest);
    Decimal.ParseShow(line as int);
  }

  /** Reading back a rendering gives the file, line and reason that were
      rendered, provided the file name holds no '<'. */
  lemma UnframeEnvelope(file: string, line: u32, reason: string)
    requires forall i :: 0 <= i < |file| ==> file[i] != '<'
    ensures Unframe(Envelope(file, line, reason)) == Some(Frame(file, line, reason))
  {
    var afterLine := reason + TailTag;
    var afterFile := Decimal.Show(line as int) + (LineReasonTag + afterLine);
    var afterHead := file + (FileLineTag + afterFile);
    StripPrefixOf(HeadTag, afterHead);
    ReadFileOf(file, afterFile);
    ReadLineOf(line, afterLine);
    StripSuffixOf(TailTag, reason);
  }

  /** Whatever `Unframe` accepts is exactly the rendering of what it returns. */
  lemma EnvelopeUnframe(s: string)
    ensures Unframe(s).Some? ==>
      var fr := Unframe(s).value;
      Envelope(fr.file, fr.line, fr.reason) == s && forall i :: 0 <= i < |fr.file| ==> fr.file[i] != '<'
  {
    if Unframe(s).Some? {
      var afterHead := StripPrefix(HeadTag, s).value;
      var fileAndRest := ReadFile(afterHead).value;
      var lineAndRest := ReadLine(fileAndRest.1).value;
      var reason := StripSuffix(TailTag, lineAndRest.1).value;
      assert Unframe(s) == Some(Frame(fileAndRest.0, lineAndRest.0, reason));
      assert lineAndRest.1 == reason + TailTag;
      assert fileAndRest.1 == Decimal.Show(lineAndRest.0 as int) + (LineReasonTag + lineAndRest.1);
      assert afterHead == fileAndRest.0 + (FileLineTag + fileAndRest.1);
      assert s == HeadTag + afterHead;
    }
  }

  /** Reading the outermost level of an error's rendering gives back its file,
      its line and its reason. */
  lemma UnframeRender(e: Error)
    requires forall i :: 0 <= i < |e.file| ==> e.file[i] != '<'
    ensures Unframe(Render(e)) == Some(Frame(e.file, e.line, Reason(e)))
  {
    UnframeEnvelope(e.file, e.line, Reason(e));
  }

  // ---------------------------------------------------------------------------
  // `format_xml` as the crate runs it: a sequence of writes to a formatter

  /** The `fmt::Formatter` sink: the text written to it so far. */
  class Formatter {
    var written: string

    constructor ()
      ensures written == []
    {
      written := [];
    }

    /** `write!(f, ...)`: appends to what has been written. */
    method Write(s: string)
      modifies this
      ensures written == old(written) + s
    {
      written := written + s;
    }
  }

  lemma AppendAssoc(a: string, b: string, c: string)
    ensures a + b + c == a + (b + c)
  {
  }

  /** The pieces `format_xml` writes, in order, spell one level of markup,
      whether `<reason>` is written together with the reason or on its own. */
  lemma WritesSpellEnvelope(w: string, file: string, line: u32, reason: string)
    ensures w + "<error>" + ("<file>" + file) + "</file>" + ("<line>" + Decimal.Show(line as int)) + "</line>"
      + ("<reason>" + reason) + "</reason>" + "</error>" == w + Envelope(file, line, reason)
    ensures w + "<error>" + ("<file>" + file) + "</file>" + ("<line>" + Decimal.Show(line as int)) + "</line>"
      + "<reason>" + reason + "</reason>" + "</error>" == w + Envelope(file, line, reason)
  {
    var g := Decimal.Show(line as int);
    var l2 := "<error>" + ("<file>" + file);
    var l3 := l2 + "</file>";
    var l4 := l3 + ("<line>" + g);
    var l5 := l4 + "</line>";
    var l6 := l5 + "<reason>";
    var l7 := l6 + reason;
    var l8 := l7 + "</reason>";
    // the pieces alone spell the envelope
    var x0 := reason + TailTag;
    var x1 := LineReasonTag + x0;
    var x2 := g + x1;
    var x3 := FileLineTag + x2;
    var x4 := file + x3;
    AppendAssoc(l7, "</reason>", "</error>");
    AppendAssoc(l6, reason, TailTag);
    AppendAssoc(l5, "<reason>", x0);
    AppendAssoc(l4, "</line>", "<reason>" + x0);
    AppendAssoc("</line>", "<reason>", x0);
    AppendAssoc(l3, "<line>" + g, x1);
    AppendAssoc("<line>", g, x1);
    AppendAssoc(l2, "</file>", "<line>" + x2);
    AppendAssoc("</file>", "<line>", x2);
    AppendAssoc("<error>", "<file>" + file, x3);
    AppendAssoc("<file>", file, x3);
    AppendAssoc("<error>", "<file>", x4);
    assert l8 + "</error>" == Envelope(file, line, reason);
    // and after whatever was written before
    AppendAssoc(w, "<error>", "<file>" + file);
    AppendAssoc(w, l2, "</file>");
    AppendAssoc(w, l3, "<line>" + g);
    AppendAssoc(w, l4, "</line>");
    AppendAssoc(w, l5, "<reason>");
    AppendAssoc(w, l6, reason);
    AppendAssoc(l5, "<reason>", reason);
    AppendAssoc(w, l5, "<reason>" + reason);
    AppendAssoc(w, l7, "</reason>");
    AppendAssoc(w, l8, "</error>");
  }

  /** `Error::format_xml`: writes the tags and fields in order, and for a wrapped
      error writes the inner error through its own `Display`. */
  method FormatXml(e: Error, f: Formatter)
    modifies f
    ensures f.written == old(f.written) + Render(e)
    decreases Size(e), 1
  {
    f.Write("<error>");
    f.Write("<file>" + e.file);
    f.Write("</file>");
    f.Write("<line>" + Decimal.Show(e.line as int));
    f.Write("</line>");
    match e.kind {
      case String(s) =>
        f.Write("<reason>" + s);
        f.Write("</reason>");
      case Wrapped(i) =>
        f.Write("<reason>");
        InnerFmt(i, f);
        f.Write("</reason>");
    }
    f.Write("</error>");
    WritesSpellEnvelope(old(f.written), e.file, e.line, Reason(e));
  }

  /** `Display for Error`. */
  method DisplayFmt(e: Error, f: Formatter)
    modifies f
    ensures f.written == old(f.written) + Render(e)
    decreases Size(e), 2
  {
    FormatXml(e, f);
  }

  /** `Debug for Error`: writes the `Display` text, so both print the same. */
  method DebugFmt(e: Error, f: Formatter)
    modifies f
    ensures f.written == old(f.written) + Render(e)
    decreases Size(e), 3
  {
    DisplayFmt(e, f);
  }

  /** `Display` of the boxed inner error, dispatched on what it is. */
  method InnerFmt(i: Inner, f: Formatter)
    modifies f
    ensures f.written == old(f.written) + InnerDisplay(i)
    decreases InnerSize(i), 0
  {
    match i {
      case Nested(x) =>
        DisplayFmt(x, f);
      case Foreign(t, _) =>
        f.Write(t);
    }
  }
}
