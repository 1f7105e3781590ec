/**
 * Parsing of the peer-ticker text field: the input is split on commas, each
 * piece is stripped of surrounding whitespace and upper-cased, and pieces that
 * are blank after stripping are dropped.
 */
module PeerInput {

  /** The characters Python's `str.strip()` removes (those for which `str.isspace()` holds). */
  predicate IsSpace(c: char) {
    || c == ' '
    || '\t' <= c <= '\r'
    || '\U{1C}' <= c <= '\U{1F}'
    || c == '\U{85}' || c == '\U{A0}' || c == '\U{1680}'
    || '\U{2000}' <= c <= '\U{200A}'
    || c == '\U{2028}' || c == '\U{2029}' || c == '\U{202F}' || c == '\U{205F}' || c == '\U{3000}'
  }

  predicate IsLower(c: char) {
    'a' <= c <= 'z'
  }

  // ---------------------------------------------------------------------------
  // `str.split(sep)` with an explicit separator, and its inverse

  /**
   * `s.split(sep)`: the maximal separator-free pieces between separators, empty
   * pieces kept; there is one piece more than there are separators.
   */
  function Split(s: string, sep: char): (parts: seq<string>)
    ensures |parts| == Count(s, sep) + 1
    ensures forall i | 0 <= i < |parts| :: sep !in parts[i]
  {
    if s == [] then [""]
    else
      var rest := Split(s[1..], sep);
      if s[0] == sep then [""] + rest else [[s[0]] + rest[0]] + rest[1..]
  }

  /** The pieces with the separator between each two neighbours. */
  function Join(parts: seq<string>, sep: char): string {
    if |parts| == 0 then ""
    else if |parts| == 1 then parts[0]
    else parts[0] + [sep] + Join(parts[1..], sep)
  }

  function Count(s: string, c: char): nat {
    if s == [] then 0 else (if s[0] == c then 1 else 0) + Count(s[1..], c)
  }

  /** Joining the pieces with the separator gives the input back. */
  lemma {:induction false} JoinSplit(s: string, sep: char)
    ensures Join(Split(s, sep), sep) == s
  {
    if s != [] {
      JoinSplit(s[1..], sep);
      var rest := Split(s[1..], sep);
      if s[0] != sep && |rest| > 1 {
        assert [s[0]] + rest[0] + [sep] + Join(rest[1..], sep) == [s[0]] + Join(rest, sep);
      }
    }
  }

  /** A separator splits the input into the pieces of what lies on either side. */
  lemma {:induction false} SplitAround(a: string, b: string, sep: char)
    ensures Split(a + [sep] + b, sep) == Split(a, sep) + Split(b, sep)
  {
    if a == [] {
      assert a + [sep] + b == [sep] + b;
      assert ([sep] + b)[1..] == b;
    } else {
      assert (a + [sep] + b)[1..] == a[1..] + [sep] + b;
      SplitAround(a[1..], b, sep);
    }
  }

  /** Text without the separator is a single piece. */
  lemma {:induction false} SplitSingle(s: string, sep: char)
    requires sep !in s
    ensures Split(s, sep) == [s]
  {
    if s != [] {
      SplitSingle(s[1..], sep);
      assert [s[0]] + s[1..] == s;
    }
  }

  /** Splitting a join of separator-free pieces gives the pieces back. */
  lemma {:induction false} SplitJoin(parts: seq<string>, sep: char)
    requires |parts| >= 1
    requires forall i | 0 <= i < |parts| :: sep !in parts[i]
    ensures Split(Join(parts, sep), sep) == parts
  {
    if |parts| == 1 {
      SplitSingle(parts[0], sep);
    } else {
      SplitAround(parts[0], Join(parts[1..], sep), sep);
      SplitSingle(parts[0], sep);
      SplitJoin(parts[1..], sep);
    }
  }

  // ---------------------------------------------------------------------------
  // `str.strip()` and `str.upper()`

  /** The number of whitespace characters the text starts with. */
  function LeadingSpaces(s: string): (n: nat)
    ensures n <= |s|
    ensures forall i | 0 <= i < n :: IsSpace(s[i])
    ensures n == |s| || !IsSpace(s[n])
  {
    if s != [] && IsSpace(s[0]) then
      var n := LeadingSpaces(s[1..]);
      assert forall i | 1 <= i < n + 1 :: s[i] == s[1..][i - 1];
      n + 1
    else 0
  }

  /** The number of whitespace characters the text ends with. */
  function TrailingSpaces(s: string): (n: nat)
    ensures n <= |s|
    ensures forall i | |s| - n <= i < |s| :: IsSpace(s[i])
    ensures n == |s| || !IsSpace(s[|s| - n - 1])
  {
    if s != [] && IsSpace(s[|s| - 1]) then
      var n := TrailingSpaces(s[..|s| - 1]);
      assert forall i | |s| - 1 - n <= i < |s| - 1 :: s[i] == s[..|s| - 1][i];
      n + 1
    else 0
  }

  /**
   * `s.strip()`: the slice of s that follows its leading whitespace and is
   * followed only by whitespace, and that neither starts nor ends with
   * whitespace.
   */
  function Strip(s: string): (r: string)
    ensures var a := LeadingSpaces(s);
            && a + |r| <= |s| && r == s[a..a + |r|]
            && (forall i | 0 <= i < a :: IsSpace(s[i]))
            && (forall i | a + |r| <= i < |s| :: IsSpace(s[i]))
    ensures r == [] || (!IsSpace(r[0]) && !IsSpace(r[|r| - 1]))
    ensures r == [] <==> forall i | 0 <= i < |s| :: IsSpace(s[i])
    ensures s == [] || (!IsSpace(s[0]) && !IsSpace(s[|s| - 1])) ==> r == s
  {
    var a := LeadingSpaces(s);
    var b := TrailingSpaces(s[a..]);
    SliceBetween(s, a, b);
    s[a..|s| - b]
  }

  /**
   * The slice of s between its maximal leading whitespace run of length a and
   * the maximal trailing whitespace run of length b after it: everything after
   * the slice is whitespace, the slice is empty exactly when all of s is, a
   * non-empty slice neither starts nor ends with whitespace, and text without
   * surrounding whitespace is its own slice.
   */
  lemma SliceBetween(s: string, a: nat, b: nat)
    requires a <= |s| && b <= |s| - a
    requires forall i | 0 <= i < a :: IsSpace(s[i])
    requires a == |s| || !IsSpace(s[a])
    requires forall i | |s[a..]| - b <= i < |s[a..]| :: IsSpace(s[a..][i])
    requires b == |s[a..]| || !IsSpace(s[a..][|s[a..]| - b - 1])
    ensures var r := s[a..|s| - b];
            && a + |r| == |s| - b && r == s[a..a + |r|]
            && (forall i | a + |r| <= i < |s| :: IsSpace(s[i]))
            && (r == [] || (!IsSpace(r[0]) && !IsSpace(r[|r| - 1])))
            && (r == [] <==> forall i | 0 <= i < |s| :: IsSpace(s[i]))
            && (|s| == 0 || (!IsSpace(s[0]) && !IsSpace(s[|s| - 1])) ==> r == s)
  {
    var t := s[a..];
    var r := s[a..|s| - b];
    forall i | |s| - b <= i < |s|
      ensures IsSpace(s[i])
    {
      assert s[i] == t[i - a];
    }
    if a + b < |s| {
      assert r[0] == s[a];
      assert r[|r| - 1] == s[|s| - b - 1] == t[|t| - b - 1];
    } else {
      assert forall i | 0 <= i < |s| :: IsSpace(s[i]);
    }
    if |s| == 0 || (!IsSpace(s[0]) && !IsSpace(s[|s| - 1])) {
      assert a == 0 && b == 0;
      assert r == s;
    }
  }

  /** Upper-case of one character (ASCII letters only). */
  function UpperChar(c: char): (u: char)
    ensures IsLower(c) ==> 'A' <= u <= 'Z' && u as int - 'A' as int == c as int - 'a' as int
    ensures !IsLower(u)
    ensures IsSpace(u) <==> IsSpace(c)
    ensures u == ',' <==> c == ','
    ensures !IsLower(c) ==> u == c
  {
    if IsLower(c) then (c as int - 32) as char else c
  }

  /** `s.upper()` (ASCII letters only) */
  function Upper(s: string): (r: string)
    ensures |r| == |s|
    ensures forall i | 0 <= i < |s| :: r[i] == UpperChar(s[i])
  {
    seq(|s|, i requires 0 <= i < |s| => UpperChar(s[i]))
  }

  // ---------------------------------------------------------------------------
  // The peer list

  /** What a parsed peer ticker looks like. */
  predicate IsTicker(t: string) {
    && t != []
    && !IsSpace(t[0]) && !IsSpace(t[|t| - 1])
    && (forall i | 0 <= i < |t| :: !IsLower(t[i]) && t[i] != ',')
  }

  /**
   * One piece of the comprehension: its stripped, upper-cased text, or nothing
   * when the piece is all whitespace.
   */
  function Clean(piece: string): (c: seq<string>)
    ensures |c| <= 1
    ensures c == [] <==> forall i | 0 <= i < |piece| :: IsSpace(piece[i])
    ensures |c| == 1 ==> c[0] == Upper(Strip(piece))
  {
    var p := Strip(piece);
    if p != [] then [Upper(p)] else []
  }

  /** The results of f on each element, concatenated in order. */
  function FlatMap<T, U>(f: T -> seq<U>, xs: seq<T>): seq<U> {
    if xs == [] then [] else f(xs[0]) + FlatMap(f, xs[1..])
  }

  /** A blank piece is dropped; any other piece becomes one ticker. */
  lemma CleanShape(piece: string)
    requires ',' !in piece
    ensures |Clean(piece)| <= 1
    ensures |Clean(piece)| == 0 <==> forall i | 0 <= i < |piece| :: IsSpace(piece[i])
    ensures |Clean(piece)| == 1 ==> IsTicker(Clean(piece)[0])
  {
    var p := Strip(piece);
    if p != [] {
      var u := Upper(p);
      assert Clean(piece) == [u];
      assert forall i | 0 <= i < |p| :: p[i] != ',' by {
        forall i | 0 <= i < |p| ensures p[i] != ',' {
          assert p[i] in piece;
        }
      }
      UpperTicker(p);
    }
  }

  /** Upper-casing keeps a stripped, comma-free text stripped and comma-free. */
  lemma UpperTicker(p: string)
    requires p != [] && !IsSpace(p[0]) && !IsSpace(p[|p| - 1])
    requires forall i | 0 <= i < |p| :: p[i] != ','
    ensures IsTicker(Upper(p))
  {
  }

  /** A ticker is its own cleaned form. */
  lemma CleanTicker(t: string)
    requires IsTicker(t)
    ensures Clean(t) == [t]
  {
    assert Strip(t) == t;
    assert Upper(t) == t;
  }

  /**
   * The peer list of the sidebar text: split on commas, each piece stripped and
   * upper-cased, blank pieces dropped. Every peer is non-empty, has no
   * surrounding whitespace, no comma and no lower-case letter, and there are at
   * most as many peers as commas plus one.
   */
  function ParsePeers(input: string): (peers: seq<string>)
    ensures |peers| <= Count(input, ',') + 1
    ensures forall k | 0 <= k < |peers| :: IsTicker(peers[k])
  {
    CleanedShape(Split(input, ','));
    FlatMap(Clean, Split(input, ','))
  }

  lemma {:induction false} FlatMapAppend<T, U>(f: T -> seq<U>, a: seq<T>, b: seq<T>)
    ensures FlatMap(f, a + b) == FlatMap(f, a) + FlatMap(f, b)
  {
    if a == [] {
      assert a + b == b;
    } else {
      assert (a + b)[0] == a[0];
      assert (a + b)[1..] == a[1..] + b;
      FlatMapAppend(f, a[1..], b);
    }
  }

  /** Cleaning comma-free pieces gives at most one ticker per piece. */
  lemma {:induction false} CleanedShape(pieces: seq<string>)
    requires forall i | 0 <= i < |pieces| :: ',' !in pieces[i]
    ensures |FlatMap(Clean, pieces)| <= |pieces|
    ensures forall k | 0 <= k < |FlatMap(Clean, pieces)| :: IsTicker(FlatMap(Clean, pieces)[k])
  {
    if pieces != [] {
      CleanedShape(pieces[1..]);
      CleanShape(pieces[0]);
    }
  }

  /** Peers keep input order: the peers of `a,b` are those of `a` followed by those of `b`. */
  lemma ParsePeersAround(a: string, b: string)
    ensures ParsePeers(a + "," + b) == ParsePeers(a) + ParsePeers(b)
  {
    SplitAround(a, b, ',');
    FlatMapAppend(Clean, Split(a, ','), Split(b, ','));
  }

  /** Input made only of whitespace gives no peers. */
  lemma BlankInputNoPeers(input: string)
    requires forall i | 0 <= i < |input| :: IsSpace(input[i])
    ensures ParsePeers(input) == []
  {
    assert ',' !in input;
    ParsePeersPiece(input);
  }

  /** Input without a comma is a single piece. */
  lemma ParsePeersPiece(piece: string)
    requires ',' !in piece
    ensures ParsePeers(piece) == Clean(piece)
  {
    SplitSingle(piece, ',');
    assert FlatMap(Clean, [piece]) == Clean(piece) + FlatMap(Clean, []);
  }

  /** Cleaning pieces that are already tickers changes nothing. */
  lemma {:induction false} CleanTickers(tickers: seq<string>)
    requires forall k | 0 <= k < |tickers| :: IsTicker(tickers[k])
    ensures FlatMap(Clean, tickers) == tickers
  {
    if tickers != [] {
      CleanTicker(tickers[0]);
      CleanTickers(tickers[1..]);
    }
  }

  /** Writing tickers comma-separated and parsing them gives the same tickers back. */
  lemma ParsePeersOfJoin(tickers: seq<string>)
    requires forall k | 0 <= k < |tickers| :: IsTicker(tickers[k])
    ensures ParsePeers(Join(tickers, ',')) == tickers
  {
    if tickers == [] {
      BlankInputNoPeers(Join(tickers, ','));
    } else {
      SplitJoin(tickers, ',');
      CleanTickers(tickers);
    }
  }

  /** Parsing is idempotent: re-parsing the comma-joined peers gives the same list. */
  lemma ParsePeersIdempotent(input: string)
    ensures ParsePeers(Join(ParsePeers(input), ',')) == ParsePeers(input)
  {
    ParsePeersOfJoin(ParsePeers(input));
  }

  /** Lower-case tickers with stray spaces, " msft, googl", parse to the upper-case tickers. */
  lemma ParsePeersExample()
    ensures ParsePeers(" msft" + "," + " googl") == ["MSFT", "GOOGL"]
  {
    ParsePeersAround(" msft", " googl");
    ExampleMsft();
    ExampleGoogl();
  }

  /** The first piece of the example. */
  lemma ExampleMsft()
    ensures ParsePeers(" msft") == ["MSFT"]
  {
    ExampleWord(" msft", "msft", "MSFT");
  }

  /** The second piece of the example. */
  lemma ExampleGoogl()
    ensures ParsePeers(" googl") == ["GOOGL"]
  {
    ExampleWord(" googl", "googl", "GOOGL");
  }

  /** A comma-free piece made of one space and a word parses to the word's upper-case form. */
  lemma ExampleWord(piece: string, w: string, u: string)
    requires piece == " " + w
    requires w != [] && !IsSpace(w[0]) && !IsSpace(w[|w| - 1]) && ',' !in w
    requires |u| == |w| && forall i | 0 <= i < |w| :: u[i] == UpperChar(w[i])
    ensures ParsePeers(piece) == [u]
  {
    ParsePeersPiece(piece);
    CleanWord(w, u);
  }

  /** A word after one space cleans to its upper-case form. */
  lemma CleanWord(w: string, u: string)
    requires w != [] && !IsSpace(w[0]) && !IsSpace(w[|w| - 1])
    requires |u| == |w| && forall i | 0 <= i < |w| :: u[i] == UpperChar(w[i])
    ensures Clean(" " + w) == [u]
  {
    StripLeadingSpace(w);
    UpperWord(w, u);
  }

  /** Upper-casing is fixed character by character. */
  lemma UpperWord(w: string, u: string)
    requires |u| == |w| && forall i | 0 <= i < |w| :: u[i] == UpperChar(w[i])
    ensures Upper(w) == u
  {
  }

  /** One leading space is stripped from a word. */
  lemma StripLeadingSpace(w: string)
    requires w != [] && !IsSpace(w[0]) && !IsSpace(w[|w| - 1])
    ensures Strip(" " + w) == w
  {
    assert (" " + w)[1..] == w;
    assert LeadingSpaces(" " + w) == 1;
    assert TrailingSpaces(w) == 0;
  }
}
