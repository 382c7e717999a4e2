/**
 * `codegen-v2` grammar: a small backtracking parser over a character cursor.
 *
 * The `Reader` of the source is not part of this model. It is modelled as
 * the input text with a cursor, under this assumption: `checkout` saves the
 * cursor and hands out a reader at the same position; `discard` (and
 * `reset`) go back to the saved cursor; `merge` (and `commit`) adopt the
 * cursor the child parser reached. `read_amt(1)` yields the next character,
 * or nothing at the end, and moves past it. `read_until::<P>()` yields the
 * text from the cursor up to the first position at which `P` derives,
 * leaving the cursor there, and fails when there is no such position.
 */
module Grammar {
  import opened Wrappers

  /** `Error::Todo` is the parse failure; `Unimplemented` stands for the panic of `todo!()`. */
  datatype Error = Todo | Unimplemented

  datatype ReaderState = ReaderState(input: string, pos: nat)

  /** A reader whose cursor lies inside its input. */
  type Reader = r: ReaderState | r.pos <= |r.input| witness ReaderState("", 0)

  /** The saved cursor of a `checkout`. */
  datatype Pending = Pending(saved: Reader)

  function Checkout(r: Reader): (Pending, Reader) {
    (Pending(r), r)
  }

  function Discard(pending: Pending): Reader {
    pending.saved
  }

  function Merge(pending: Pending, branch: Reader): Reader {
    branch
  }

  /** `read_amt(1)`: the next character, if any, and the staged cursor past it. */
  function ReadAmt1(r: Reader): (Option<char>, Reader) {
    if r.pos < |r.input| then (Some(r.input[r.pos]), ReaderState(r.input, r.pos + 1)) else (None, r)
  }

  datatype DerivationResult<T> = DerivationResult(derived: T, branch: Reader)

  type ParseResult<T> = Result<DerivationResult<T>, Error>

  /** `ParseTree::derive` of a grammar rule whose derivation has type `T`. */
  type Parser<!T> = Reader -> ParseResult<T>

  datatype EitherOr<T, D> = Either(left: T) | Or(right: D)

  datatype GStruct = GStruct

  datatype GType = Bool | Char | Int | Struct(st: GStruct)

  datatype GEof = GEof

  datatype GSeparatorItem = Space | Newline | Tab

  datatype GParamName = GParamName(name: string)

  datatype GMarker = GMarker(marker: string)

  datatype GParamItemWithMarker = GParamItemWithMarker(ty: GType, marker: GMarker, name: GParamName)

  datatype GParamItemWithoutMarker = GParamItemWithoutMarker(ty: GType, name: GParamName)

  /** A non-empty list: one thing, or a thing followed by more. */
  datatype Continuum<T> = Thing(thing: T) | Next(next: ContinuumNext<T>)

  datatype ContinuumNext<T> = ContinuumNext(thing: T, next: Continuum<T>)

  type GSeparator = Continuum<GSeparatorItem>

  // ---------------------------------------------------------------------------
  // Continuum

  /** The things of a `Continuum`, first to last; there is always at least one. */
  function Items<T>(c: Continuum<T>): (s: seq<T>)
    ensures |s| >= 1
  {
    match c
    case Thing(t) => [t]
    case Next(n) => [n.thing] + Items(n.next)
  }

  /** `Continuum::add`: appends `newThing` after the last thing, leaving the others in order. */
  function Add<T>(c: Continuum<T>, newThing: T): (r: Continuum<T>)
    ensures Items(r) == Items(c) + [newThing]
  {
    match c
    case Thing(t) => Next(ContinuumNext(t, Thing(newThing)))
    case Next(n) => Next(ContinuumNext(n.thing, Add(n.next, newThing)))
  }

  /** A `Continuum` is determined by its things. */
  lemma {:induction false} ItemsInjective<T>(a: Continuum<T>, b: Continuum<T>)
    requires Items(a) == Items(b)
    ensures a == b
  {
    if a.Next? && b.Next? {
      assert Items(a.next.next) == Items(a)[1..] == Items(b)[1..] == Items(b.next.next);
      ItemsInjective(a.next.next, b.next.next);
    }
  }

  /** The `Continuum` holding exactly the things of a non-empty sequence. */
  function FromItems<T>(s: seq<T>): (c: Continuum<T>)
    requires |s| >= 1
    ensures Items(c) == s
  {
    if |s| == 1 then Thing(s[0]) else Next(ContinuumNext(s[0], FromItems(s[1..])))
  }

  // ---------------------------------------------------------------------------
  // Single-step rules

  predicate IsSeparatorChar(c: char) {
    c == ' ' || c == '\n' || c == '\t'
  }

  /** The character a separator item stands for. */
  function SeparatorChar(item: GSeparatorItem): char {
    match item
    case Space => ' '
    case Newline => '\n'
    case Tab => '\t'
  }

  /** `GEof::derive`: succeeds, consuming nothing, exactly at the end of the input. */
  function EofDerive(r: Reader): (res: ParseResult<GEof>)
    ensures res.Ok? <==> r.pos == |r.input|
    ensures res.Ok? ==> res.value.branch == r
    ensures res.Err? ==> res.error == Todo
  {
    var (slice, handle) := ReadAmt1(r);
    if slice.Some? then Err(Todo) else Ok(DerivationResult(GEof, handle))
  }

  /**
   * `GSeparatorItem::derive`: consumes exactly one character and succeeds
   * only if it is a space, a newline or a tab; fails at the end of input.
   */
  function SeparatorItemDerive(r: Reader): (res: ParseResult<GSeparatorItem>)
    ensures res.Ok? <==> r.pos < |r.input| && IsSeparatorChar(r.input[r.pos])
    ensures res.Ok? ==> SeparatorChar(res.value.derived) == r.input[r.pos]
    ensures res.Ok? ==> res.value.branch == ReaderState(r.input, r.pos + 1)
    ensures res.Err? ==> res.error == Todo
  {
    var (slice, handle) := ReadAmt1(r);
    match slice
    case None => Err(Todo)
    case Some(c) =>
      match c
      case ' ' => Ok(DerivationResult(Space, handle))
      case '\n' => Ok(DerivationResult(Newline, handle))
      case '\t' => Ok(DerivationResult(Tab, handle))
      case _ => Err(Todo)
  }

  /**
   * `EitherOr::derive`: ordered choice. The left rule wins if it derives;
   * otherwise the reader backtracks and the right rule is tried at the same
   * cursor; if both fail, so does the choice.
   */
  function EitherOrDerive<T, D>(left: Parser<T>, right: Parser<D>, r: Reader): (res: ParseResult<EitherOr<T, D>>)
    ensures left(r).Ok? ==> res == Ok(DerivationResult(Either(left(r).value.derived), left(r).value.branch))
    ensures left(r).Err? && right(r).Ok? ==> res == Ok(DerivationResult(Or(right(r).value.derived), right(r).value.branch))
    ensures left(r).Err? && right(r).Err? ==> res == Err(Todo)
  {
    var (pending, checkedOut) := Checkout(r);
    match left(checkedOut)
    case Ok(res) => Ok(DerivationResult(Either(res.derived), res.branch))
    case Err(_) =>
      var reader := Discard(pending);
      match right(reader)
      case Ok(res) => Ok(DerivationResult(Or(res.derived), res.branch))
      case Err(_) => Err(Todo)
  }

  // ---------------------------------------------------------------------------
  // One-or-more repetition

  /**
   * Every success of `p` moves the cursor forward within the same input. The
   * repetition loop terminates only for such rules.
   */
  ghost predicate Advances<T>(p: Parser<T>) {
    forall r: Reader :: p(r).Ok? ==> p(r).value.branch.input == r.input && r.pos < p(r).value.branch.pos
  }

  /** The things `p` derives one after another from `r`, and the cursor after the last of them. */
  datatype Repetition<T> = Repetition(items: seq<T>, rest: Reader)

  function Repeat<T>(p: Parser<T>, r: Reader): (rep: Repetition<T>)
    requires Advances(p)
    ensures rep.rest.input == r.input && r.pos <= rep.rest.pos
    ensures rep.items == [] <==> p(r).Err?
    ensures rep.items == [] ==> rep.rest == r
    ensures p(rep.rest).Err?
    decreases |r.input| - r.pos
  {
    match p(r)
    case Err(_) => Repetition([], r)
    case Ok(d) =>
      var more := Repeat(p, d.branch);
      Repetition([d.derived] + more.items, more.rest)
  }

  /**
   * `Continuum<T>::derive`: fails iff the first attempt fails; otherwise holds
   * every thing derived, in order, and leaves the cursor after the last
   * success (the failed attempt is discarded).
   */
  function ContinuumDerive<T>(p: Parser<T>, r: Reader): (res: ParseResult<Continuum<T>>)
    requires Advances(p)
    ensures res.Err? <==> p(r).Err?
    ensures res.Err? ==> res.error == Todo
    ensures res.Ok? ==> Items(res.value.derived) == Repeat(p, r).items
    ensures res.Ok? ==> res.value.branch == Repeat(p, r).rest
  {
    var rep := Repeat(p, r);
    if rep.items == [] then Err(Todo) else Ok(DerivationResult(FromItems(rep.items), rep.rest))
  }

  /** The loop of `Continuum<T>::derive`, accumulating with `add`. */
  method ContinuumDeriveLoop<T>(p: Parser<T>, r: Reader) returns (res: ParseResult<Continuum<T>>)
    requires Advances(p)
    ensures res == ContinuumDerive(p, r)
  {
    var reader := r;
    var sepItems: Option<Continuum<T>> := None;
    while true
      invariant reader.input == r.input && r.pos <= reader.pos
      invariant sepItems.None? ==> reader == r
      invariant sepItems.Some? ==> Items(sepItems.value) + Repeat(p, reader).items == Repeat(p, r).items
      invariant Repeat(p, reader).rest == Repeat(p, r).rest
      decreases |reader.input| - reader.pos
    {
      var (pending, checkedOut) := Checkout(reader);
      var attempt := p(checkedOut);
      if attempt.Ok? {
        reader := Merge(pending, attempt.value.branch);
        if sepItems.Some? {
          sepItems := Some(Add(sepItems.value, attempt.value.derived));
        } else {
          sepItems := Some(Thing(attempt.value.derived));
        }
      } else {
        if sepItems.Some? {
          res := Ok(DerivationResult(sepItems.value, Discard(pending)));
          ItemsInjective(sepItems.value, FromItems(Repeat(p, r).items));
        } else {
          res := Err(Todo);
        }
        return;
      }
    }
  }

  // ---------------------------------------------------------------------------
  // Separators and words

  /** The first position at or after `k` that does not hold a separator. */
  function SkipSeparators(s: string, k: nat): (j: nat)
    requires k <= |s|
    ensures k <= j <= |s|
    ensures forall i :: k <= i < j ==> IsSeparatorChar(s[i])
    ensures j == |s| || !IsSeparatorChar(s[j])
    decreases |s| - k
  {
    if k < |s| && IsSeparatorChar(s[k]) then SkipSeparators(s, k + 1) else k
  }

  /** The first position at or after `k` that holds a separator, or the end. */
  function WordEnd(s: string, k: nat): (j: nat)
    requires k <= |s|
    ensures k <= j <= |s|
    ensures forall i :: k <= i < j ==> !IsSeparatorChar(s[i])
    ensures j == |s| || IsSeparatorChar(s[j])
    decreases |s| - k
  {
    if k < |s| && !IsSeparatorChar(s[k]) then WordEnd(s, k + 1) else k
  }

  /** The characters a run of separator items stands for. */
  function SeparatorText(items: seq<GSeparatorItem>): (t: string)
    ensures |t| == |items|
  {
    if items == [] then "" else [SeparatorChar(items[0])] + SeparatorText(items[1..])
  }

  lemma SeparatorItemAdvances()
    ensures Advances(SeparatorItemDerive)
  {
  }

  /** Repeating `GSeparatorItem` consumes exactly the run of separators at the cursor. */
  lemma {:induction false} SeparatorRepeat(r: Reader)
    ensures Repeat(SeparatorItemDerive, r).rest == ReaderState(r.input, SkipSeparators(r.input, r.pos))
    ensures SeparatorText(Repeat(SeparatorItemDerive, r).items) == r.input[r.pos..SkipSeparators(r.input, r.pos)]
    decreases |r.input| - r.pos
  {
    SeparatorItemAdvances();
    if r.pos < |r.input| && IsSeparatorChar(r.input[r.pos]) {
      var next: Reader := ReaderState(r.input, r.pos + 1);
      SeparatorRepeat(next);
      var rep := Repeat(SeparatorItemDerive, r);
      var end := SkipSeparators(r.input, r.pos);
      assert rep.items == [SeparatorItemDerive(r).value.derived] + Repeat(SeparatorItemDerive, next).items;
      assert rep.items[1..] == Repeat(SeparatorItemDerive, next).items;
      assert r.input[r.pos..end] == [r.input[r.pos]] + r.input[r.pos + 1..end];
    }
  }

  /**
   * `GSeparator::derive` (`Continuum<GSeparatorItem>`): one or more
   * separator characters. It succeeds iff a separator is at the cursor,
   * holds the whole run of separators, and leaves the cursor after it.
   */
  function SeparatorDerive(r: Reader): (res: ParseResult<GSeparator>)
    ensures res.Ok? <==> r.pos < |r.input| && IsSeparatorChar(r.input[r.pos])
    ensures res.Ok? ==> res.value.branch == ReaderState(r.input, SkipSeparators(r.input, r.pos))
    ensures res.Ok? ==> SeparatorText(Items(res.value.derived)) == r.input[r.pos..SkipSeparators(r.input, r.pos)]
    ensures res.Err? ==> res.error == Todo
  {
    SeparatorItemAdvances();
    SeparatorRepeat(r);
    ContinuumDerive(SeparatorItemDerive, r)
  }

  /** `EitherOr<GSeparator, GEof>::derive`: a run of separators, or the end of the input. */
  function SeparatorOrEofDerive(r: Reader): (res: ParseResult<EitherOr<GSeparator, GEof>>)
    ensures res.Ok? <==> r.pos == |r.input| || IsSeparatorChar(r.input[r.pos])
    ensures res.Ok? ==> res.value.branch == ReaderState(r.input, SkipSeparators(r.input, r.pos))
    ensures res.Err? ==> res.error == Todo
  {
    EitherOrDerive(SeparatorDerive, EofDerive, r)
  }

  // ---------------------------------------------------------------------------
  // read_until

  /** The first position at or after `k` at which `p` derives. */
  function FindFrom<P>(p: Parser<P>, s: string, k: nat): (j: Option<nat>)
    requires k <= |s|
    ensures j.Some? ==> k <= j.value <= |s| && p(ReaderState(s, j.value)).Ok?
    decreases |s| - k
  {
    if p(ReaderState(s, k)).Ok? then Some(k)
    else if k == |s| then None
    else FindFrom(p, s, k + 1)
  }

  /** `read_until::<P>()`: the text before the first position where `P` derives, and the cursor there. */
  function ReadUntil<P>(p: Parser<P>, r: Reader): Result<(string, Reader), Error> {
    match FindFrom(p, r.input, r.pos)
    case None => Err(Todo)
    case Some(k) => Ok((r.input[r.pos..k], ReaderState(r.input, k)))
  }

  /** Reading until a separator or the end stops at the end of the current word. */
  lemma {:induction false} FindSeparatorOrEof(s: string, k: nat)
    requires k <= |s|
    ensures FindFrom(SeparatorOrEofDerive, s, k) == Some(WordEnd(s, k))
    decreases |s| - k
  {
    if k < |s| && !IsSeparatorChar(s[k]) {
      FindSeparatorOrEof(s, k + 1);
    }
  }

  /** Reading until a separator stops at the end of the current word, and fails if no separator follows. */
  lemma {:induction false} FindSeparator(s: string, k: nat)
    requires k <= |s|
    ensures FindFrom(SeparatorDerive, s, k) == if WordEnd(s, k) < |s| then Some(WordEnd(s, k)) else None
    decreases |s| - k
  {
    if k < |s| && !IsSeparatorChar(s[k]) {
      FindSeparator(s, k + 1);
    }
  }

  // ---------------------------------------------------------------------------
  // Words

  predicate IsTypeKeyword(w: string) {
    w == "bool" || w == "char" || w == "int"
  }

  /** The keyword that denotes a primitive type; a struct has none. */
  function Spelling(t: GType): Option<string> {
    match t
    case Bool => Some("bool")
    case Char => Some("char")
    case Int => Some("int")
    case Struct(_) => None
  }

  /** `GStruct::derive` is `todo!()`: it always panics. */
  function StructDerive(r: Reader): ParseResult<GStruct>
  {
    Err(Unimplemented)
  }

  /**
   * `GType::derive`: the word up to the next separator or the end names the
   * type. `bool`, `char` and `int` give `Bool`, `Char` and `Int`, and no
   * other word gives one of them; any other word falls back to the struct
   * rule, whose panic ends the parse.
   */
  function GTypeDerive(r: Reader): (res: ParseResult<GType>)
    ensures var w := r.input[r.pos..WordEnd(r.input, r.pos)];
            && (res.Ok? <==> IsTypeKeyword(w))
            && (res.Ok? ==> Spelling(res.value.derived) == Some(w))
            && (res.Ok? ==> res.value.branch == ReaderState(r.input, WordEnd(r.input, r.pos)))
            && (res.Err? ==> res.error == Unimplemented)
  {
    FindSeparatorOrEof(r.input, r.pos);
    match ReadUntil(SeparatorOrEofDerive, r)
    case Err(e) => Err(e)
    case Ok((slice, handle)) =>
      match slice
      case "bool" => Ok(DerivationResult(Bool, handle))
      case "char" => Ok(DerivationResult(Char, handle))
      case "int" => Ok(DerivationResult(Int, handle))
      case _ =>
        // Roll back to the start of the word and try the struct rule.
        var reader := r;
        match StructDerive(reader)
        case Ok(st) => Ok(DerivationResult(Struct(st.derived), st.branch))
        case Err(Unimplemented) => Err(Unimplemented)
        case Err(Todo) => Err(Todo)
  }

  /** `GParamName::derive`: the word up to the next separator or the end (possibly empty); never fails. */
  function ParamNameDerive(r: Reader): (res: ParseResult<GParamName>)
    ensures res.Ok?
    ensures res.value.derived == GParamName(r.input[r.pos..WordEnd(r.input, r.pos)])
    ensures res.value.branch == ReaderState(r.input, WordEnd(r.input, r.pos))
  {
    FindSeparatorOrEof(r.input, r.pos);
    match ReadUntil(SeparatorOrEofDerive, r)
    case Err(e) => Err(e)
    case Ok((name, handle)) => Ok(DerivationResult(GParamName(name), handle))
  }

  /** `GMarker::derive`: the word up to the next separator; fails if no separator follows. */
  function MarkerDerive(r: Reader): (res: ParseResult<GMarker>)
    ensures res.Ok? <==> WordEnd(r.input, r.pos) < |r.input|
    ensures res.Ok? ==> res.value.derived == GMarker(r.input[r.pos..WordEnd(r.input, r.pos)])
    ensures res.Ok? ==> res.value.branch == ReaderState(r.input, WordEnd(r.input, r.pos))
    ensures res.Err? ==> res.error == Todo
  {
    FindSeparator(r.input, r.pos);
    match ReadUntil(SeparatorDerive, r)
    case Err(e) => Err(e)
    case Ok((marker, handle)) => Ok(DerivationResult(GMarker(marker), handle))
  }

  // ---------------------------------------------------------------------------
  // Parameter items

  /**
   * "Ignore leading separators": try `EitherOr<GSeparator, GEof>`, merging
   * on success and discarding on failure. Either way the cursor lands on the
   * first non-separator at or after the old one.
   */
  lemma OptionalSeparatorsLand(r: Reader)
    ensures var res := SeparatorOrEofDerive(r);
            (if res.Ok? then res.value.branch else r) == ReaderState(r.input, SkipSeparators(r.input, r.pos))
  {
  }

  /**
   * `GParamItemWithoutMarker::derive`: a type keyword, optional separators,
   * then the parameter name up to the next separator or the end.
   */
  method DeriveParamItemWithoutMarker(r: Reader) returns (res: ParseResult<GParamItemWithoutMarker>)
    ensures var s := r.input;
            var tyEnd := WordEnd(s, r.pos);
            var nameStart := SkipSeparators(s, tyEnd);
            var nameEnd := WordEnd(s, nameStart);
            && (res.Ok? <==> IsTypeKeyword(s[r.pos..tyEnd]))
            && (res.Err? ==> res.error == Unimplemented)
            && (res.Ok? ==> Spelling(res.value.derived.ty) == Some(s[r.pos..tyEnd]))
            && (res.Ok? ==> res.value.derived.name == GParamName(s[nameStart..nameEnd]))
            && (res.Ok? ==> res.value.branch == ReaderState(s, nameEnd))
  {
    var reader := r;

    // Derive parameter type.
    var (pending, checkedOut) := Checkout(reader);
    var tyRes := GTypeDerive(checkedOut);
    if tyRes.Err? {
      return Err(tyRes.error);
    }
    reader := Merge(pending, tyRes.value.branch);

    // Ignore leading separators.
    var (pending', checkedOut') := Checkout(reader);
    var sepRes := SeparatorOrEofDerive(checkedOut');
    OptionalSeparatorsLand(checkedOut');
    if sepRes.Ok? {
      reader := Merge(pending', sepRes.value.branch);
    } else {
      reader := Discard(pending');
    }

    // Derive parameter name; `GParamName::derive` never fails.
    var nameRes := ParamNameDerive(reader);
    res := Ok(DerivationResult(GParamItemWithoutMarker(tyRes.value.derived, nameRes.value.derived), nameRes.value.branch));
  }

  /**
   * `GParamItemWithMarker::derive`: a type keyword, optional separators, a
   * marker word that a separator must follow, optional separators, then the
   * parameter name. A type that is not a keyword reaches the struct rule's
   * panic; a marker with no separator after it fails.
   */
  method DeriveParamItemWithMarker(r: Reader) returns (res: ParseResult<GParamItemWithMarker>)
    ensures var s := r.input;
            var tyEnd := WordEnd(s, r.pos);
            var markerStart := SkipSeparators(s, tyEnd);
            var markerEnd := WordEnd(s, markerStart);
            var nameStart := SkipSeparators(s, markerEnd);
            var nameEnd := WordEnd(s, nameStart);
            && (res.Ok? <==> IsTypeKeyword(s[r.pos..tyEnd]) && markerEnd < |s|)
            && (res.Err? ==> res.error == if IsTypeKeyword(s[r.pos..tyEnd]) then Todo else Unimplemented)
            && (res.Ok? ==> Spelling(res.value.derived.ty) == Some(s[r.pos..tyEnd]))
            && (res.Ok? ==> res.value.derived.marker == GMarker(s[markerStart..markerEnd]) && markerStart < markerEnd)
            && (res.Ok? ==> res.value.derived.name == GParamName(s[nameStart..nameEnd]))
            && (res.Ok? ==> res.value.branch == ReaderState(s, nameEnd))
  {
    var reader := r;

    // Derive parameter type.
    var (pending, checkedOut) := Checkout(reader);
    var tyRes := GTypeDerive(checkedOut);
    if tyRes.Err? {
      return Err(tyRes.error);
    }
    reader := Merge(pending, tyRes.value.branch);

    // Ignore leading separators.
    var (pending', checkedOut') := Checkout(reader);
    var sepRes := SeparatorOrEofDerive(checkedOut');
    OptionalSeparatorsLand(checkedOut');
    if sepRes.Ok? {
      reader := Merge(pending', sepRes.value.branch);
    } else {
      reader := Discard(pending');
    }

    // Derive marker.
    var (pending'', checkedOut'') := Checkout(reader);
    var markerRes := MarkerDerive(checkedOut'');
    if markerRes.Err? {
      return Err(markerRes.error);
    }
    reader := Merge(pending'', markerRes.value.branch);

    // Ignore leading separators.
    var (pending''', checkedOut''') := Checkout(reader);
    var sepRes' := SeparatorOrEofDerive(checkedOut''');
    OptionalSeparatorsLand(checkedOut''');
    if sepRes'.Ok? {
      reader := Merge(pending''', sepRes'.value.branch);
    } else {
      reader := Discard(pending''');
    }

    // Derive parameter name; `GParamName::derive` never fails.
    var (pendingName, checkedOutName) := Checkout(reader);
    var nameRes := ParamNameDerive(checkedOutName);
    res := Ok(DerivationResult(
      GParamItemWithMarker(tyRes.value.derived, markerRes.value.derived, nameRes.value.derived),
      Merge(pendingName, nameRes.value.branch)));
  }
}
