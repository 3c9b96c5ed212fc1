/** The `severity_level` enumeration and its stream operators: `operator<<`
    writes one of six upper-case literals, `operator>>` reads one
    whitespace-delimited word and maps it back, throwing `invalid_argument`
    on anything else.

    The enumeration itself is declared in Config.h, which is not part of this
    model. Its order is ASSUMED to be trace < debug < info < warning < error
    < fatal, the order of the parse chain. */
module Severity {
  import opened Results

  datatype Level = Trace | Debug | Info | Warning | Error | Fatal

  /** Position of a level in the (assumed) declaration order of the enum. */
  function Rank(l: Level): nat {
    match l
    case Trace => 0
    case Debug => 1
    case Info => 2
    case Warning => 3
    case Error => 4
    case Fatal => 5
  }

  /** The C++ comparison `a >= b` on two enumerators. */
  predicate AtLeast(a: Level, b: Level) {
    Rank(a) >= Rank(b)
  }

  /** The exception `operator>>` throws: `std::invalid_argument(s)` carrying
      the word it read. */
  datatype ParseError = InvalidArgument(word: string)

  /** The six texts the parser accepts, case-sensitive. */
  const Literals: set<string> := {"TRACE", "DEBUG", "INFO", "WARNING", "ERROR", "FATAL"}

  /** `operator<<`: the text written for a level. */
  function Format(l: Level): (s: string)
    ensures s in Literals
    ensures ParseWord(s) == Success(l)
  {
    match l
    case Trace => "TRACE"
    case Debug => "DEBUG"
    case Info => "INFO"
    case Warning => "WARNING"
    case Error => "ERROR"
    case Fatal => "FATAL"
  }

  /** The comparison chain of `operator>>` applied to the word already read. */
  function ParseWord(w: string): (r: Result<Level, ParseError>)
    ensures r.Success? <==> w in Literals
    ensures r.Failure? ==> r.error == InvalidArgument(w)
  {
    if w == "TRACE" then Success(Trace)
    else if w == "DEBUG" then Success(Debug)
    else if w == "INFO" then Success(Info)
    else if w == "WARNING" then Success(Warning)
    else if w == "ERROR" then Success(Error)
    else if w == "FATAL" then Success(Fatal)
    else Failure(InvalidArgument(w))
  }

  // ---------------------------------------------------------------------
  // Reading one word from a stream (`stream >> s` into a std::string)
  // ---------------------------------------------------------------------

  /** `isspace` in the C locale. */
  predicate IsSpace(c: char) {
    c == ' ' || c == '\t' || c == '\n' || c == '\U{B}' || c == '\U{C}' || c == '\r'
  }

  predicate AllSpace(s: string) {
    forall i :: 0 <= i < |s| ==> IsSpace(s[i])
  }

  predicate NoSpace(s: string) {
    forall i :: 0 <= i < |s| ==> !IsSpace(s[i])
  }

  /** `skipped` leading characters are whitespace, they are followed by
      `token`, which has no whitespace and stops at whitespace or the end of
      the input; an empty token means the input held nothing but whitespace.
      This is what extracting a std::string from a stream does. */
  predicate IsTokenSplit(s: string, skipped: nat, token: string) {
    && skipped + |token| <= |s|
    && AllSpace(s[..skipped])
    && s[skipped..skipped + |token|] == token
    && NoSpace(token)
    && (skipped + |token| == |s| || IsSpace(s[skipped + |token|]))
    && (token == [] ==> skipped == |s|)
  }

  datatype Split = Split(skipped: nat, token: string)

  /** Number of leading whitespace characters of `s`. */
  function LeadingSpace(s: string): (n: nat)
    ensures n <= |s|
    ensures AllSpace(s[..n])
    ensures n == |s| || !IsSpace(s[n])
  {
    if s == [] || !IsSpace(s[0]) then 0
    else
      var n := 1 + LeadingSpace(s[1..]);
      assert s[..n] == [s[0]] + s[1..][..n - 1];
      n
  }

  /** The longest whitespace-free prefix of `s`. */
  function Word(s: string): (w: string)
    ensures |w| <= |s| && w == s[..|w|]
    ensures NoSpace(w)
    ensures |w| == |s| || IsSpace(s[|w|])
  {
    if s == [] || IsSpace(s[0]) then []
    else [s[0]] + Word(s[1..])
  }

  /** The word `stream >> s` extracts from the whole input. */
  function FirstToken(s: string): (r: Split)
    ensures IsTokenSplit(s, r.skipped, r.token)
  {
    var n := LeadingSpace(s);
    var w := Word(s[n..]);
    assert s[n..n + |w|] == s[n..][..|w|];
    Split(n, w)
  }

  /** There is exactly one way to read the first word of an input. */
  lemma TokenSplitUnique(s: string, i: nat, t: string, j: nat, u: string)
    requires IsTokenSplit(s, i, t) && IsTokenSplit(s, j, u)
    ensures i == j && t == u
  {
    assert forall k :: 0 <= k < i ==> IsSpace(s[k]) by {
      forall k | 0 <= k < i ensures IsSpace(s[k]) { assert s[..i][k] == s[k]; }
    }
    assert forall k :: 0 <= k < j ==> IsSpace(s[k]) by {
      forall k | 0 <= k < j ensures IsSpace(s[k]) { assert s[..j][k] == s[k]; }
    }
    assert forall k :: 0 <= k < |t| ==> t[k] == s[i + k];
    assert forall k :: 0 <= k < |u| ==> u[k] == s[j + k];
    assert forall k :: i <= k < i + |t| ==> !IsSpace(s[k]) by {
      forall k | i <= k < i + |t| ensures !IsSpace(s[k]) { assert t[k - i] == s[k]; }
    }
    assert forall k :: j <= k < j + |u| ==> !IsSpace(s[k]) by {
      forall k | j <= k < j + |u| ensures !IsSpace(s[k]) { assert u[k - j] == s[k]; }
    }
    assert i < |s| ==> t != [] && !IsSpace(s[i]);
    assert j < |s| ==> u != [] && !IsSpace(s[j]);
    assert i == j;
    assert |t| == |u|;
  }

  /** The extraction loop of `stream >> s`: skip whitespace, then collect
      characters up to the next whitespace or the end. */
  method ReadToken(s: string) returns (token: string)
    ensures IsTokenSplit(s, FirstToken(s).skipped, token)
    ensures token == FirstToken(s).token
  {
    var i := 0;
    while i < |s| && IsSpace(s[i])
      invariant i <= |s|
      invariant AllSpace(s[..i])
    {
      i := i + 1;
    }
    ghost var start := i;
    token := [];
    while i < |s| && !IsSpace(s[i])
      invariant start <= i <= |s|
      invariant token == s[start..i]
      invariant NoSpace(token)
    {
      token := token + [s[i]];
      i := i + 1;
    }
    assert IsTokenSplit(s, start, token);
    TokenSplitUnique(s, start, token, FirstToken(s).skipped, FirstToken(s).token);
  }

  /** `std::istringstream(text) >> level`: a level, or the exception thrown
      for the word that was read (the empty word when the text is blank);
      on failure no level is produced, so the target keeps its old value. */
  function Parse(text: string): (r: Result<Level, ParseError>)
    ensures r.Success? ==> FirstToken(text).token == Format(r.value)
    ensures r.Failure? ==> FirstToken(text).token !in Literals
    ensures r.Failure? ==> r.error == InvalidArgument(FirstToken(text).token)
  {
    ParseWord(FirstToken(text).token)
  }

  // ---------------------------------------------------------------------
  // Properties
  // ---------------------------------------------------------------------

  /** The declaration order is a strict total order on the six levels. */
  lemma RankInjective(a: Level, b: Level)
    ensures Rank(a) == Rank(b) <==> a == b
    ensures AtLeast(a, b) || AtLeast(b, a)
    ensures AtLeast(a, b) && AtLeast(b, a) ==> a == b
  {
  }

  /** Formatting is injective: two levels never print the same text. */
  lemma FormatInjective(a: Level, b: Level)
    ensures Format(a) == Format(b) <==> a == b
  {
    if Format(a) == Format(b) {
      assert ParseWord(Format(a)) == Success(a);
    }
  }

  /** Writing a level and reading it back yields the level. */
  lemma FormatThenParse(l: Level)
    ensures Parse(Format(l)) == Success(l)
  {
    var s := Format(l);
    assert IsTokenSplit(s, 0, s) by {
      assert s[0..0 + |s|] == s;
    }
    TokenSplitUnique(s, 0, s, FirstToken(s).skipped, FirstToken(s).token);
  }

  /** Reading any of the six literals and writing the level back yields the
      literal. */
  lemma ParseThenFormat(w: string)
    requires w in Literals
    ensures Parse(w).Success? && Format(Parse(w).value) == w
  {
    var l :| l in {Trace, Debug, Info, Warning, Error, Fatal} && Format(l) == w;
    FormatThenParse(l);
  }

  /** Only the first whitespace-delimited word counts: leading whitespace is
      skipped and whatever follows the word after a whitespace character is
      ignored. */
  lemma ParseFirstWordOnly(lead: string, l: Level, rest: string)
    requires AllSpace(lead)
    requires rest == [] || IsSpace(rest[0])
    ensures Parse(lead + Format(l) + rest) == Success(l)
  {
    var s := lead + Format(l) + rest;
    var w := Format(l);
    assert s[..|lead|] == lead;
    assert s[|lead|..|lead| + |w|] == w;
    if rest != [] {
      assert s[|lead| + |w|] == rest[0];
    }
    assert IsTokenSplit(s, |lead|, w);
    TokenSplitUnique(s, |lead|, w, FirstToken(s).skipped, FirstToken(s).token);
  }

  /** A first word that is not exactly one of the six literals makes the
      parser throw with that word, whatever follows it. */
  lemma ParseRejectsOtherWords(lead: string, w: string, rest: string)
    requires AllSpace(lead) && NoSpace(w) && w != []
    requires rest == [] || IsSpace(rest[0])
    requires w !in Literals
    ensures Parse(lead + w + rest) == Failure(InvalidArgument(w))
  {
    var s := lead + w + rest;
    assert s[..|lead|] == lead;
    assert s[|lead|..|lead| + |w|] == w;
    if rest != [] {
      assert s[|lead| + |w|] == rest[0];
    }
    assert IsTokenSplit(s, |lead|, w);
    TokenSplitUnique(s, |lead|, w, FirstToken(s).skipped, FirstToken(s).token);
  }

  /** A blank value has no word at all; the parser throws with the empty
      word. */
  lemma ParseRejectsBlank(s: string)
    requires AllSpace(s)
    ensures Parse(s) == Failure(InvalidArgument(""))
  {
    assert s[..|s|] == s;
    assert IsTokenSplit(s, |s|, "");
    TokenSplitUnique(s, |s|, "", FirstToken(s).skipped, FirstToken(s).token);
  }

  /** Matching is case-sensitive: a lower-case spelling is rejected. */
  lemma ParseRejectsLowerCase()
    ensures Parse("debug") == Failure(InvalidArgument("debug"))
  {
    var d := "debug";
    assert NoSpace(d) by {
      assert d == ['d', 'e', 'b', 'u', 'g'];
    }
    ParseRejectsOtherWords("", d, "");
    assert "" + d + "" == d;
  }

  /** Matching is case-sensitive: a capitalised spelling is rejected. */
  lemma ParseRejectsMixedCase()
    ensures Parse("Warning") == Failure(InvalidArgument("Warning"))
  {
    var w := "Warning";
    ParseRejectsOtherWords("", w, "");
    assert "" + w + "" == w;
  }
}
