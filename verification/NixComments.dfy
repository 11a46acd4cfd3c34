/** Stripping Nix `#` comments, string-aware, byte by byte. */
module NixComments {
  import opened Identity

  type Byte = n: nat | n < 256

  const NEWLINE: Byte := 10
  const QUOTE: Byte := 34
  const HASH: Byte := 35
  const TICK: Byte := 39
  const BACKSLASH: Byte := 92

  datatype Mode = Code | Comment | Quoted | Indented

  predicate Ticks(t: seq<Byte>, n: nat) {
    n <= |t| && forall i :: 0 <= i < n ==> t[i] == TICK
  }

  /** How many bytes the next token holds, and the mode after it. */
  function Token(m: Mode, t: seq<Byte>): (r: (nat, Mode))
    requires t != []
    ensures 1 <= r.0 <= |t|
  {
    match m
    case Code =>
      if t[0] == QUOTE then (1, Quoted)
      else if Ticks(t, 2) then (2, Indented)
      else if t[0] == HASH then (1, Comment)
      else (1, Code)
    case Comment => if t[0] == NEWLINE then (1, Code) else (1, Comment)
    case Quoted =>
      if t[0] == BACKSLASH && |t| > 1 then (2, Quoted)
      else if t[0] == QUOTE then (1, Code)
      else (1, Quoted)
    case Indented =>
      if Ticks(t, 3) then (3, Indented)
      else if Ticks(t, 2) then (2, Code)
      else (1, Indented)
  }

  /** A comment runs from a `#` in code up to, not through, the newline. */
  predicate Dropped(m: Mode, t: seq<Byte>)
    requires t != []
  {
    (m == Code && t[0] == HASH) || (m == Comment && t[0] != NEWLINE)
  }

  function Keep(m: Mode, t: seq<Byte>): seq<Byte>
    decreases |t|
  {
    if t == [] then []
    else
      var (n, next) := Token(m, t);
      (if Dropped(m, t) then [] else t[..n]) + Keep(next, t[n..])
  }

  // ---- the program

  predicate TicksAt(t: seq<Byte>, i: nat, n: nat) {
    i + n <= |t| && (n >= 1 ==> t[i] == TICK) && (n >= 2 ==> t[i + 1] == TICK) && (n >= 3 ==> t[i + 2] == TICK)
  }

  /** `Keep` of what follows index `i`, without cutting the text up. */
  ghost function KeepFrom(m: Mode, t: seq<Byte>, i: nat): seq<Byte>
    decreases |t| - i, if m == Comment then 1 else 0
  {
    if i >= |t| then []
    else match m
      case Code =>
        if t[i] == QUOTE then [QUOTE] + KeepFrom(Quoted, t, i + 1)
        else if TicksAt(t, i, 2) then [TICK, TICK] + KeepFrom(Indented, t, i + 2)
        else if t[i] == HASH then KeepFrom(Comment, t, i + 1)
        else [t[i]] + KeepFrom(Code, t, i + 1)
      case Comment => if t[i] == NEWLINE then KeepFrom(Code, t, i) else KeepFrom(Comment, t, i + 1)
      case Quoted =>
        if t[i] == BACKSLASH && i + 1 < |t| then [t[i], t[i + 1]] + KeepFrom(Quoted, t, i + 2)
        else if t[i] == QUOTE then [t[i]] + KeepFrom(Code, t, i + 1)
        else [t[i]] + KeepFrom(Quoted, t, i + 1)
      case Indented =>
        if TicksAt(t, i, 3) then [TICK, TICK, TICK] + KeepFrom(Indented, t, i + 3)
        else if TicksAt(t, i, 2) then [TICK, TICK] + KeepFrom(Code, t, i + 2)
        else [t[i]] + KeepFrom(Indented, t, i + 1)
  }

  method StripNixComments(text: seq<Byte>) returns (out: seq<Byte>)
    ensures out == Keep(Code, text)
  {
    ghost var whole := KeepFrom(Code, text, 0);
    out := [];
    var i := 0;
    while i < |text|
      invariant i <= |text|
      invariant out + KeepFrom(Code, text, i) == whole
    {
      if text[i] == QUOTE {
        out, i := CopyQuoted(text, i + 1, out + [QUOTE], whole);
      } else if TicksAt(text, i, 2) {
        out, i := CopyIndented(text, i + 2, out + [TICK, TICK], whole);
      } else if text[i] == HASH {
        i := SkipComment(text, i, out, whole);
      } else {
        out, i := out + [text[i]], i + 1;
      }
    }
    KeepFromIs(Code, text, 0, text);
  }

  method CopyQuoted(text: seq<Byte>, from: nat, before: seq<Byte>, ghost whole: seq<Byte>) returns (out: seq<Byte>, i: nat)
    requires from <= |text| && before + KeepFrom(Quoted, text, from) == whole
    ensures from <= i <= |text| && out + KeepFrom(Code, text, i) == whole
  {
    out, i := before, from;
    while i < |text|
      invariant from <= i <= |text|
      invariant out + KeepFrom(Quoted, text, i) == whole
    {
      var c := text[i];
      out, i := out + [c], i + 1;
      if c == BACKSLASH && i < |text| {
        out, i := out + [text[i]], i + 1;
      } else if c == QUOTE {
        return;
      }
    }
  }

  method CopyIndented(text: seq<Byte>, from: nat, before: seq<Byte>, ghost whole: seq<Byte>) returns (out: seq<Byte>, i: nat)
    requires from <= |text| && before + KeepFrom(Indented, text, from) == whole
    ensures from <= i <= |text| && out + KeepFrom(Code, text, i) == whole
  {
    out, i := before, from;
    while i < |text|
      invariant from <= i <= |text|
      invariant out + KeepFrom(Indented, text, i) == whole
    {
      if TicksAt(text, i, 3) {
        out, i := out + [TICK, TICK, TICK], i + 3;
      } else if TicksAt(text, i, 2) {
        out, i := out + [TICK, TICK], i + 2;
        return;
      } else {
        out, i := out + [text[i]], i + 1;
      }
    }
  }

  method SkipComment(text: seq<Byte>, from: nat, ghost out: seq<Byte>, ghost whole: seq<Byte>) returns (i: nat)
    requires from < |text| && text[from] == HASH && out + KeepFrom(Comment, text, from) == whole
    ensures from < i <= |text| && out + KeepFrom(Code, text, i) == whole
  {
    i := from;
    while i < |text| && text[i] != NEWLINE
      invariant from <= i <= |text|
      invariant out + KeepFrom(Comment, text, i) == whole
    {
      i := i + 1;
    }
  }

  /** At the newline a comment is over: the newline is code. */
  lemma CommentEnds(t: seq<Byte>)
    requires t != [] && t[0] == NEWLINE
    ensures Keep(Comment, t) == Keep(Code, t)
  {
  }

  function Emitted(m: Mode, t: seq<Byte>): seq<Byte>
    requires t != []
  {
    if Dropped(m, t) then [] else t[..Token(m, t).0]
  }

  lemma Displays(t: seq<Byte>)
    ensures |t| >= 1 ==> t[..1] == [t[0]]
    ensures |t| >= 2 ==> t[..2] == [t[0], t[1]]
    ensures |t| >= 3 ==> t[..3] == [t[0], t[1], t[2]]
  {
  }

  lemma KeepFromStep(m: Mode, t: seq<Byte>, i: nat, rest: seq<Byte>)
    requires i < |t| && rest == t[i..] && !(m == Comment && t[i] == NEWLINE)
    ensures KeepFrom(m, t, i) == Emitted(m, rest) + KeepFrom(Token(m, rest).1, t, i + Token(m, rest).0)
  {
    Displays(rest);
    assert rest[0] == t[i];
    assert |rest| > 1 ==> rest[1] == t[i + 1];
    assert |rest| > 2 ==> rest[2] == t[i + 2];
    assert Ticks(rest, 2) <==> TicksAt(t, i, 2);
    assert Ticks(rest, 3) <==> TicksAt(t, i, 3);
  }

  lemma KeepFromNext(m: Mode, t: seq<Byte>, i: nat, rest: seq<Byte>, n: nat, next: Mode, tail: seq<Byte>)
    requires i < |t| && rest == t[i..] && !(m == Comment && t[i] == NEWLINE) && Token(m, rest) == (n, next)
    requires tail == rest[n..] && KeepFrom(next, t, i + n) == Keep(next, tail)
    ensures KeepFrom(m, t, i) == Keep(m, rest)
  {
    KeepFromStep(m, t, i, rest);
    Unfold(m, rest);
  }

  lemma KeepFromNewline(t: seq<Byte>, i: nat, rest: seq<Byte>)
    requires i < |t| && rest == t[i..] && t[i] == NEWLINE && KeepFrom(Code, t, i) == Keep(Code, rest)
    ensures KeepFrom(Comment, t, i) == Keep(Comment, rest)
  {
    CommentEnds(rest);
  }

  lemma KeepFromEnd(m: Mode, t: seq<Byte>)
    ensures KeepFrom(m, t, |t|) == Keep(m, [])
  {
  }

  lemma {:induction false} KeepFromIs(m: Mode, t: seq<Byte>, i: nat, rest: seq<Byte>)
    requires i <= |t| && rest == t[i..]
    ensures KeepFrom(m, t, i) == Keep(m, rest)
    decreases |rest|, if m == Comment then 1 else 0
  {
    if rest == [] {
      KeepFromEnd(m, t);
    } else if m == Comment && rest[0] == NEWLINE {
      KeepFromIs(Code, t, i, rest);
      KeepFromNewline(t, i, rest);
    } else {
      var n, next := Token(m, rest).0, Token(m, rest).1;
      Slices(t, i, n);
      var tail := rest[n..];
      KeepFromIs(next, t, i + n, tail);
      KeepFromNext(m, t, i, rest, n, next, tail);
    }
  }

  lemma Slices(t: seq<Byte>, i: nat, n: nat)
    requires i + n <= |t|
    ensures t[i..][n..] == t[i + n..] && t[i..][..n] == t[i..i + n]
  {
  }

  // ---- nothing live is left

  /** The first byte that survives: the text's own, or the newline after a comment. */
  lemma {:induction false} Head(m: Mode, t: seq<Byte>)
    ensures var k := Keep(m, t);
            if t != [] && !Dropped(m, t) then k != [] && k[0] == t[0] else k == [] || k[0] == NEWLINE
    decreases |t|
  {
    if t != [] && Dropped(m, t) {
      Head(Comment, t[1..]);
    }
  }

  /** What is read back in a comment's place is code. */
  function Resumed(m: Mode): Mode {
    if m == Comment then Code else m
  }

  lemma Unfold(m: Mode, t: seq<Byte>)
    requires t != []
    ensures Keep(m, t) == Emitted(m, t) + Keep(Token(m, t).1, t[Token(m, t).0..])
    ensures Dropped(m, t) ==> Keep(m, t) == Keep(Comment, t[1..])
  {
  }

  lemma Cut(a: seq<Byte>, b: seq<Byte>)
    ensures (a + b)[..|a|] == a && (a + b)[|a|..] == b
  {
  }

  /** Stripping again finds nothing to strip. */
  lemma {:induction false} StripIsIdempotent(m: Mode, t: seq<Byte>)
    ensures Keep(Resumed(m), Keep(m, t)) == Keep(m, t)
    decreases |t|
  {
    if t != [] {
      var n, next := Token(m, t).0, Token(m, t).1;
      var rest := Keep(next, t[n..]);
      StripIsIdempotent(next, t[n..]);
      Unfold(m, t);
      if !Dropped(m, t) {
        SameToken(m, t);
        Unfold(Resumed(m), t[..n] + rest);
        Cut(t[..n], rest);
      }
    }
  }

  /** A token looks past itself only for a tick, or after a backslash for anything. */
  lemma TokenLooks(m: Mode, t: seq<Byte>, n: nat, next: Mode, e: seq<Byte>)
    requires m != Comment && t != [] && Token(m, t) == (n, next) && !Dropped(m, t)
    requires m == Quoted && n == 1 && t[0] == BACKSLASH ==> e == []
    requires Ticks(e, 1) <==> Ticks(t[n..], 1)
    ensures Token(m, t[..n] + e) == (n, next) && !Dropped(m, t[..n] + e)
  {
    var all := t[..n] + e;
    assert all[0] == t[0];
    assert n < |all| ==> all[n] == e[0];
    assert n < |t| ==> t[n..][0] == t[n];
    assert n > 1 ==> all[1] == t[1];
  }

  /** The kept text splits into the same tokens. */
  lemma SameToken(m: Mode, t: seq<Byte>)
    requires t != [] && !Dropped(m, t)
    ensures var (n, next) := Token(m, t);
            var k := t[..n] + Keep(next, t[n..]);
            && k != [] && !Dropped(Resumed(m), k)
            && Token(Resumed(m), k) == (n, next) && next != Comment
  {
    var (n, next) := Token(m, t);
    Head(next, t[n..]);
    if m == Comment {
      assert t[..1] == [NEWLINE];
      TokenLooksNewline(Keep(next, t[n..]));
    } else {
      TokenLooks(m, t, n, next, Keep(next, t[n..]));
    }
  }

  lemma TokenLooksNewline(e: seq<Byte>)
    ensures Token(Code, [NEWLINE] + e) == (1, Code) && !Dropped(Code, [NEWLINE] + e)
  {
    assert ([NEWLINE] + e)[0] == NEWLINE;
  }

  // ---- lines stay where they are

  function ConsLine(c: Byte, lines: seq<seq<Byte>>): seq<seq<Byte>>
    requires lines != []
  {
    if c == NEWLINE then [[]] + lines else [[c] + lines[0]] + lines[1..]
  }

  function Lines(t: seq<Byte>): (r: seq<seq<Byte>>)
    ensures r != []
  {
    if t == [] then [[]] else ConsLine(t[0], Lines(t[1..]))
  }

  /** As many lines, each a beginning of its counterpart. */
  predicate Under(a: seq<seq<Byte>>, b: seq<seq<Byte>>) {
    |a| == |b| && forall i :: 0 <= i < |a| ==> a[i] <= b[i]
  }

  lemma LinesCons(c: Byte, t: seq<Byte>)
    ensures Lines([c] + t) == ConsLine(c, Lines(t))
  {
    assert ([c] + t)[1..] == t;
  }

  lemma PrefixCons(c: Byte, x: seq<Byte>, y: seq<Byte>)
    requires x <= y
    ensures [c] + x <= [c] + y
  {
  }

  lemma UnderConsLine(c: Byte, a: seq<seq<Byte>>, b: seq<seq<Byte>>)
    requires a != [] && Under(a, b)
    ensures Under(ConsLine(c, a), ConsLine(c, b))
  {
    var x, y := ConsLine(c, a), ConsLine(c, b);
    PrefixCons(c, a[0], b[0]);
    if c == NEWLINE {
      forall i | 0 < i < |x| ensures x[i] <= y[i] { assert x[i] == a[i - 1] && y[i] == b[i - 1]; }
    } else {
      forall i | 0 < i < |x| ensures x[i] <= y[i] { assert x[i] == a[i] && y[i] == b[i]; }
    }
  }

  lemma UnderCons(c: Byte, a: seq<Byte>, b: seq<Byte>)
    requires Under(Lines(a), Lines(b))
    ensures Under(Lines([c] + a), Lines([c] + b))
  {
    LinesCons(c, a);
    LinesCons(c, b);
    UnderConsLine(c, Lines(a), Lines(b));
  }

  lemma {:induction false} UnderPrefix(x: seq<Byte>, a: seq<Byte>, b: seq<Byte>)
    requires Under(Lines(a), Lines(b))
    ensures Under(Lines(x + a), Lines(x + b))
  {
    if x == [] {
      assert x + a == a && x + b == b;
    } else {
      UnderPrefix(x[1..], a, b);
      UnderCons(x[0], x[1..] + a, x[1..] + b);
      Peel(x, a);
      Peel(x, b);
    }
  }

  lemma UnderDropped(c: Byte, a: seq<Byte>, b: seq<Byte>)
    requires c != NEWLINE && Under(Lines(a), Lines(b)) && Lines(a)[0] == []
    ensures Under(Lines(a), Lines([c] + b))
  {
    LinesCons(c, b);
    var y := ConsLine(c, Lines(b));
    forall i | 0 < i < |y| ensures Lines(a)[i] <= y[i] { assert y[i] == Lines(b)[i]; }
  }

  lemma Split(t: seq<Byte>, n: nat)
    requires n <= |t|
    ensures t == t[..n] + t[n..]
    ensures n == 1 ==> t == [t[0]] + t[1..]
  {
  }

  /** A kept token, or a dropped byte before a line that is already empty. */
  lemma LinesStep(m: Mode, t: seq<Byte>, rest: seq<Byte>, k: seq<Byte>)
    requires t != [] && rest == t[Token(m, t).0..] && Under(Lines(k), Lines(rest))
    requires Dropped(m, t) ==> Lines(k)[0] == []
    ensures Under(Lines(Emitted(m, t) + k), Lines(t))
    ensures m == Comment ==> Lines(Emitted(m, t) + k)[0] == []
  {
    var n := Token(m, t).0;
    Split(t, n);
    if Dropped(m, t) {
      UnderDropped(t[0], k, rest);
      assert [] + k == k;
    } else {
      UnderPrefix(t[..n], k, rest);
      if m == Comment {
        assert t[..n] == [NEWLINE];
        LinesCons(NEWLINE, k);
      }
    }
  }

  lemma {:induction false} LinesUnder(m: Mode, t: seq<Byte>)
    ensures Under(Lines(Keep(m, t)), Lines(t))
    ensures m == Comment ==> Lines(Keep(m, t))[0] == []
    decreases |t|
  {
    if t != [] {
      var n, next := Token(m, t).0, Token(m, t).1;
      LinesUnder(next, t[n..]);
      LinesStep(m, t, t[n..], Keep(next, t[n..]));
      Unfold(m, t);
    }
  }

  /** Stripping never moves a line: each keeps its number and loses at most its end. */
  lemma StripKeepsLines(text: seq<Byte>)
    ensures Under(Lines(Keep(Code, text)), Lines(text))
  {
    LinesUnder(Code, text);
  }

  // ---- what passes through

  lemma {:induction false} NoHashNoChange(m: Mode, t: seq<Byte>)
    requires m != Comment && HASH !in t
    ensures Keep(m, t) == t
    decreases |t|
  {
    if t != [] {
      var n, next := Token(m, t).0, Token(m, t).1;
      assert t == t[..n] + t[n..];
      NoHashNoChange(next, t[n..]);
      Unfold(m, t);
    }
  }

  /** The inside of a double-quoted string: no bare quote, no escape left open. */
  predicate QuotedBody(t: seq<Byte>) {
    t == []
    || (t[0] == BACKSLASH && |t| > 1 && QuotedBody(t[2..]))
    || (t[0] != BACKSLASH && t[0] != QUOTE && QuotedBody(t[1..]))
  }

  lemma Prepend(m: Mode, x: seq<Byte>, t: seq<Byte>, next: Mode)
    requires x != [] && !Dropped(m, x + t) && Token(m, x + t) == (|x|, next)
    ensures Keep(m, x + t) == x + Keep(next, t)
  {
    Unfold(m, x + t);
    Cut(x, t);
  }

  lemma Regroup(a: seq<Byte>, n: nat, t: seq<Byte>)
    requires n <= |a|
    ensures a + t == a[..n] + (a[n..] + t)
  {
  }

  lemma {:induction false} QuotedPasses(body: seq<Byte>, t: seq<Byte>)
    requires QuotedBody(body)
    ensures Keep(Quoted, body + t) == body + Keep(Quoted, t)
    decreases |body|
  {
    if body == [] {
      assert body + t == t;
    } else {
      var n := if body[0] == BACKSLASH then 2 else 1;
      QuotedPasses(body[n..], t);
      Regroup(body, n, t);
      Regroup(body, n, Keep(Quoted, t));
      assert (body + t)[0] == body[0];
      Prepend(Quoted, body[..n], body[n..] + t, Quoted);
    }
  }

  /** The inside of an indented string: ticks come in escaped threes or alone before
      another byte. */
  predicate IndentedBody(t: seq<Byte>) {
    t == []
    || (Ticks(t, 3) && IndentedBody(t[3..]))
    || (t[0] != TICK && IndentedBody(t[1..]))
    || (t[0] == TICK && |t| > 1 && t[1] != TICK && IndentedBody(t[1..]))
  }

  lemma IndentedToken(body: seq<Byte>, t: seq<Byte>)
    requires body != [] && IndentedBody(body)
    ensures Token(Indented, body + t) == (if Ticks(body, 3) then 3 else 1, Indented)
    ensures IndentedBody(body[if Ticks(body, 3) then 3 else 1..])
  {
    var all := body + t;
    assert all[0] == body[0] && (|body| > 1 ==> all[1] == body[1]) && (|body| > 2 ==> all[2] == body[2]);
  }

  lemma {:induction false} IndentedPasses(body: seq<Byte>, t: seq<Byte>)
    requires IndentedBody(body)
    ensures Keep(Indented, body + t) == body + Keep(Indented, t)
    decreases |body|
  {
    if body == [] {
      assert body + t == t;
    } else {
      var n := if Ticks(body, 3) then 3 else 1;
      IndentedToken(body, t);
      IndentedPasses(body[n..], t);
      Regroup(body, n, t);
      Regroup(body, n, Keep(Indented, t));
      Prepend(Indented, body[..n], body[n..] + t, Indented);
    }
  }

  /** A string literal in code passes through verbatim, whatever it contains. */
  lemma QuotedStringPasses(body: seq<Byte>, rest: seq<Byte>)
    requires QuotedBody(body)
    ensures Keep(Code, [QUOTE] + (body + ([QUOTE] + rest))) == [QUOTE] + (body + ([QUOTE] + Keep(Code, rest)))
  {
    Prepend(Quoted, [QUOTE], rest, Code);
    QuotedPasses(body, [QUOTE] + rest);
    Prepend(Code, [QUOTE], body + ([QUOTE] + rest), Quoted);
  }

  lemma IndentedStringPasses(body: seq<Byte>, rest: seq<Byte>)
    requires IndentedBody(body) && !Ticks(rest, 1)
    ensures Keep(Code, [TICK, TICK] + (body + ([TICK, TICK] + rest)))
            == [TICK, TICK] + (body + ([TICK, TICK] + Keep(Code, rest)))
  {
    var close := [TICK, TICK] + rest;
    assert |close| > 2 ==> close[2] == rest[0];
    Prepend(Indented, [TICK, TICK], rest, Code);
    IndentedPasses(body, close);
    Prepend(Code, [TICK, TICK], body + close, Indented);
  }

  /** A comment in code goes, up to its newline. */
  lemma {:induction false} CommentsGo(m: Mode, words: seq<Byte>, rest: seq<Byte>)
    requires NEWLINE !in words
    requires m == Comment || (m == Code && words != [] && words[0] == HASH)
    ensures Keep(m, words + [NEWLINE] + rest) == [NEWLINE] + Keep(Code, rest)
    decreases |words|
  {
    if words == [] {
      assert words + [NEWLINE] + rest == [NEWLINE] + rest;
      Prepend(Comment, [NEWLINE], rest, Code);
    } else {
      var t := words + [NEWLINE] + rest;
      assert t[0] == words[0] && t[1..] == words[1..] + [NEWLINE] + rest;
      CommentsGo(Comment, words[1..], rest);
      Unfold(m, t);
    }
  }

  // ---- the output as text

  /** The output is pushed byte by byte as characters; as text again each character past
      ASCII takes two bytes. */
  function Encode(t: seq<Byte>): seq<Byte> {
    if t == [] then []
    else Coded(t[0]) + Encode(t[1..])
  }

  predicate Ascii(t: seq<Byte>) {
    forall i :: 0 <= i < |t| ==> t[i] < 128
  }

  lemma {:induction false} EncodeLength(t: seq<Byte>)
    ensures |Encode(t)| >= |t|
    ensures |Encode(t)| == |t| ==> Ascii(t)
    ensures Ascii(t) ==> Encode(t) == t
  {
    if t != [] {
      EncodeLength(t[1..]);
      assert t == [t[0]] + t[1..];
    }
  }

  lemma {:induction false} KeepLength(m: Mode, t: seq<Byte>)
    ensures |Keep(m, t)| <= |t|
    decreases |t|
  {
    if t != [] {
      KeepLength(Token(m, t).1, t[Token(m, t).0..]);
    }
  }

  /** Text that strips to itself: its first token is kept and the rest strips to itself. */
  lemma FixToken(m: Mode, t: seq<Byte>)
    requires m != Comment && t != [] && Keep(m, t) == t
    ensures !Dropped(m, t) && Token(m, t).1 != Comment
    ensures Keep(Token(m, t).1, t[Token(m, t).0..]) == t[Token(m, t).0..]
  {
    var n := Token(m, t).0;
    Unfold(m, t);
    KeepLength(Comment, t[1..]);
    assert t == t[..n] + t[n..];
    Cut(t[..n], Keep(Token(m, t).1, t[n..]));
  }

  lemma Wide(m: Mode, b: Byte, t: seq<Byte>)
    requires m != Comment && b >= 128
    ensures Keep(m, [b] + t) == [b] + Keep(m, t)
  {
    assert ([b] + t)[0] == b;
    Prepend(m, [b], t, m);
  }

  function Coded(c: Byte): seq<Byte> {
    if c < 128 then [c] else if c < 192 then [194, c] else [195, c - 64]
  }

  lemma EncodeCons(c: Byte, t: seq<Byte>)
    ensures Encode([c] + t) == Coded(c) + Encode(t)
  {
    assert ([c] + t)[1..] == t;
  }

  lemma Pair(a: Byte, b: Byte, t: seq<Byte>)
    ensures [a, b] + t == [a] + ([b] + t)
  {
  }

  lemma TwoInert(m: Mode, a: Byte, b: Byte, t: seq<Byte>)
    requires m != Comment && a >= 128 && b >= 128
    ensures Keep(m, [a, b] + t) == [a, b] + Keep(m, t)
  {
    Pair(a, b, t);
    Pair(a, b, Keep(m, t));
    Wide(m, b, t);
    Wide(m, a, [b] + t);
  }

  /** One character past ASCII is two inert bytes. */
  lemma CodedIsInert(m: Mode, c: Byte, t: seq<Byte>)
    requires m != Comment && c >= 128
    ensures Keep(m, Coded(c) + t) == Coded(c) + Keep(m, t)
  {
    TwoInert(m, Coded(c)[0], Coded(c)[1], t);
  }

  /** Encoding keeps which byte comes next, as far as a token looks. */
  lemma EncodeHead(t: seq<Byte>)
    ensures t == [] <==> Encode(t) == []
    ensures t != [] ==> Encode(t)[0] == Coded(t[0])[0]
    ensures t != [] && t[0] < 128 ==> Encode(t)[1..] == Encode(t[1..])
  {
  }

  lemma {:induction false} EncodeFixed(m: Mode, t: seq<Byte>)
    requires m != Comment && Keep(m, t) == t
    ensures Keep(m, Encode(t)) == Encode(t)
    decreases |t|
  {
    if t != [] {
      var n, next := Token(m, t).0, Token(m, t).1;
      FixToken(m, t);
      EncodeFixed(next, t[n..]);
      EncodeToken(m, t, n, next, t[n..]);
    }
  }

  /** One token of the encoded text. */
  lemma EncodeToken(m: Mode, t: seq<Byte>, n: nat, next: Mode, rest: seq<Byte>)
    requires m != Comment && t != [] && Token(m, t) == (n, next) && rest == t[n..] && !Dropped(m, t)
    requires Keep(next, Encode(rest)) == Encode(rest)
    ensures Keep(m, Encode(t)) == Encode(t)
  {
    Split(t, 1);
    EncodeCons(t[0], t[1..]);
    if t[0] >= 128 {
      CodedIsInert(m, t[0], Encode(rest));
    } else if m == Quoted && n == 2 {
      EncodeEscape(t[1], Encode(rest));
      Split(t[1..], 1);
      EncodeCons(t[1], rest);
    } else {
      EncodePlain(m, t, n, next, rest);
    }
  }

  lemma EscapeFixed(a: Byte, e: seq<Byte>)
    requires Keep(Quoted, e) == e
    ensures Keep(Quoted, [BACKSLASH] + ([a] + e)) == [BACKSLASH] + ([a] + e)
  {
    Pair(BACKSLASH, a, e);
    Prepend(Quoted, [BACKSLASH, a], e, Quoted);
  }

  lemma EncodeEscape(c: Byte, e: seq<Byte>)
    requires Keep(Quoted, e) == e
    ensures Keep(Quoted, [BACKSLASH] + (Coded(c) + e)) == [BACKSLASH] + (Coded(c) + e)
  {
    var a := Coded(c)[0];
    if c < 128 {
      EscapeFixed(a, e);
    } else {
      var b := Coded(c)[1];
      Wide(Quoted, b, e);
      EscapeFixed(a, [b] + e);
      Pair(a, b, e);
    }
  }

  /** A token of ASCII bytes is encoded as itself and read as itself. */
  lemma EncodePlain(m: Mode, t: seq<Byte>, n: nat, next: Mode, rest: seq<Byte>)
    requires m != Comment && t != [] && Token(m, t) == (n, next) && rest == t[n..] && !Dropped(m, t)
    requires t[0] < 128 && (m == Quoted ==> n == 1)
    requires Keep(next, Encode(rest)) == Encode(rest)
    ensures Keep(m, Encode(t)) == Encode(t)
  {
    EncodeTicks(t, n);
    EncodeHead(rest);
    TokenLooks(m, t, n, next, Encode(rest));
    Prepend(m, t[..n], Encode(rest), next);
  }

  lemma {:induction false} EncodeAscii(x: seq<Byte>, t: seq<Byte>)
    requires Ascii(x)
    ensures Encode(x + t) == x + Encode(t)
  {
    if x == [] {
      assert x + t == t;
    } else {
      EncodeAscii(x[1..], t);
      EncodeCons(x[0], x[1..] + t);
      Regroup(x, 1, t);
      Regroup(x, 1, Encode(t));
      assert x[..1] == [x[0]];
    }
  }

  lemma EncodeTicks(t: seq<Byte>, n: nat)
    requires 1 <= n <= |t| && t[0] < 128 && (n > 1 ==> Ticks(t, n))
    ensures Encode(t) == t[..n] + Encode(t[n..])
  {
    Split(t, n);
    EncodeAscii(t[..n], t[n..]);
  }

  // ---- byte by byte

  /** The mode each byte is read in. */
  function Modes(m: Mode, t: seq<Byte>): (r: seq<Mode>)
    ensures |r| == |t|
    decreases |t|
  {
    if t == [] then []
    else
      var (n, next) := Token(m, t);
      seq(n, _ => m) + Modes(next, t[n..])
  }

  /** Byte `i` belongs to a comment: the `#` that opens one, or what follows on its line. */
  predicate Commented(m: Mode, t: seq<Byte>, i: nat)
    requires i < |t|
  {
    var mode := Modes(m, t)[i];
    (mode == Code && t[i] == HASH) || (mode == Comment && t[i] != NEWLINE)
  }

  lemma ModesAt(m: Mode, t: seq<Byte>, i: nat)
    requires i < |t|
    ensures var (n, next) := Token(m, t);
            && (i < n ==> Modes(m, t)[i] == m)
            && (i >= n ==> Modes(m, t)[i] == Modes(next, t[n..])[i - n])
  {
  }

  /** A token is dropped or kept as a whole. */
  lemma CommentedAt(m: Mode, t: seq<Byte>, i: nat)
    requires i < |t|
    ensures var (n, next) := Token(m, t);
            && (i < n ==> (Commented(m, t, i) <==> Dropped(m, t)))
            && (i >= n ==> (Commented(m, t, i) <==> Commented(next, t[n..], i - n)))
  {
    ModesAt(m, t, i);
  }

  /** No byte past ASCII stands outside a comment. */
  ghost predicate PlainOutside(m: Mode, t: seq<Byte>) {
    forall i :: 0 <= i < |t| && !Commented(m, t, i) ==> t[i] < 128
  }

  lemma PlainSplits(m: Mode, t: seq<Byte>)
    requires t != []
    ensures var (n, next) := Token(m, t);
            PlainOutside(m, t) <==> Ascii(Emitted(m, t)) && PlainOutside(next, t[n..])
  {
    var (n, next) := Token(m, t);
    var rest := t[n..];
    forall i | 0 <= i < |t|
      ensures i < n ==> (Commented(m, t, i) <==> Dropped(m, t))
      ensures i >= n ==> (Commented(m, t, i) <==> Commented(next, rest, i - n)) && t[i] == rest[i - n]
    {
      CommentedAt(m, t, i);
    }
    if PlainOutside(m, t) {
      forall i | 0 <= i < |rest| && !Commented(next, rest, i) ensures rest[i] < 128 {
        assert t[i + n] == rest[i];
      }
    }
    if Ascii(Emitted(m, t)) && PlainOutside(next, rest) {
      forall i | 0 <= i < |t| && !Commented(m, t, i) ensures t[i] < 128 {
        if i < n {
          assert Emitted(m, t)[i] == t[i];
        }
      }
    }
  }

  lemma AsciiConcat(a: seq<Byte>, b: seq<Byte>)
    ensures Ascii(a + b) <==> Ascii(a) && Ascii(b)
  {
    if Ascii(a + b) {
      forall i | 0 <= i < |a| ensures a[i] < 128 { assert (a + b)[i] == a[i]; }
      forall i | 0 <= i < |b| ensures b[i] < 128 { assert (a + b)[|a| + i] == b[i]; }
    }
  }

  lemma {:induction false} KeptIsAscii(m: Mode, t: seq<Byte>)
    ensures Ascii(Keep(m, t)) <==> PlainOutside(m, t)
    decreases |t|
  {
    if t != [] {
      var n, next := Token(m, t).0, Token(m, t).1;
      KeptIsAscii(next, t[n..]);
      Unfold(m, t);
      AsciiConcat(Emitted(m, t), Keep(next, t[n..]));
      PlainSplits(m, t);
    }
  }

  /** Stripping the stripped text again changes nothing exactly when the text has no byte
      past ASCII outside its comments. */
  lemma RestripIsExact(text: seq<Byte>)
    ensures Keep(Code, Encode(Keep(Code, text))) == Keep(Code, text) <==> PlainOutside(Code, text)
  {
    var out := Keep(Code, text);
    StripIsIdempotent(Code, text);
    EncodeFixed(Code, out);
    EncodeLength(out);
    KeptIsAscii(Code, text);
  }

  /** One accented letter, two bytes in, comes out as four. */
  lemma AccentsChange()
    ensures var text: seq<Byte> := [195, 169];
            && Keep(Code, text) == text
            && Keep(Code, Encode(Keep(Code, text))) == [195, 131, 194, 169]
  {
    var text: seq<Byte> := [195, 169];
    NoHashNoChange(Code, text);
    EncodeCons(195, [169]);
    EncodeCons(169, []);
    assert [195] + [169] == text && [169] + [] == [169];
    assert Encode(text) == [195, 131, 194, 169];
    NoHashNoChange(Code, Encode(text));
  }

  lemma {:induction false} FixedHasNoComment(m: Mode, t: seq<Byte>, i: nat)
    requires m != Comment && Keep(m, t) == t && i < |t|
    ensures !Commented(m, t, i) && Modes(m, t)[i] != Comment
    decreases |t|
  {
    var n, next := Token(m, t).0, Token(m, t).1;
    FixToken(m, t);
    ModesAt(m, t, i);
    CommentedAt(m, t, i);
    if i >= n {
      FixedHasNoComment(next, t[n..], i - n);
    }
  }

  /** No `#` outside a string is left, and no byte of a comment. */
  lemma NoLiveHash(text: seq<Byte>, i: nat)
    requires i < |Keep(Code, text)|
    ensures var out := Keep(Code, text);
            && (out[i] == HASH ==> Modes(Code, out)[i] == Quoted || Modes(Code, out)[i] == Indented)
            && !Commented(Code, out, i)
  {
    StripIsIdempotent(Code, text);
    FixedHasNoComment(Code, Keep(Code, text), i);
  }
}
