/** Command lines as the build script writes them and as a shell splits them
    back into words. A command is a blank-separated list of pieces, each either
    written bare or wrapped in double quotes. The splitting knows blanks and
    double quotes only, so the lemmas about it are stated for pieces free of
    every other character `sh` or `cmd.exe` would interpret. */
module Shell {

  datatype Piece = Bare(text: string) | Quoted(text: string)

  /** How a piece is written on the command line. */
  function Show(p: Piece): string {
    match p
    case Bare(s) => s
    case Quoted(s) => "\"" + s + "\""
  }

  /** Every piece, each preceded by one blank. */
  function Spaced(ps: seq<Piece>): string {
    if ps == [] then "" else " " + Show(ps[0]) + Spaced(ps[1..])
  }

  /** The pieces separated by single blanks. */
  function Render(ps: seq<Piece>): string {
    if ps == [] then "" else Show(ps[0]) + Spaced(ps[1..])
  }

  /** The words the pieces stand for. */
  function Texts(ps: seq<Piece>): seq<string> {
    seq(|ps|, i requires 0 <= i < |ps| => ps[i].text)
  }

  lemma TextsCons(ps: seq<Piece>)
    requires ps != []
    ensures Texts(ps) == [ps[0].text] + Texts(ps[1..])
  {
  }

  lemma TextsAppend(a: seq<Piece>, b: seq<Piece>)
    ensures Texts(a + b) == Texts(a) + Texts(b)
  {
  }

  lemma Assoc(a: string, b: string, c: string)
    ensures a + b + c == a + (b + c)
  {
  }

  lemma {:induction false} SpacedAppend(a: seq<Piece>, b: seq<Piece>)
    ensures Spaced(a + b) == Spaced(a) + Spaced(b)
  {
    if a == [] {
      assert a + b == b;
    } else {
      var c := a + b;
      assert c[0] == a[0] && c[1..] == a[1..] + b;
      var h, x, y := " " + Show(a[0]), Spaced(a[1..]), Spaced(b);
      assert Spaced(c) == h + Spaced(a[1..] + b);
      SpacedAppend(a[1..], b);
      Assoc(h, x, y);
    }
  }

  /** Appending pieces to a non-empty command appends their blank-prefixed text. */
  lemma RenderAppend(a: seq<Piece>, b: seq<Piece>)
    requires a != []
    ensures Render(a + b) == Render(a) + Spaced(b)
  {
    assert (a + b)[1..] == a[1..] + b;
    SpacedAppend(a[1..], b);
  }

  /** Appending one piece appends a blank and its text. */
  lemma SpacedSnoc(ps: seq<Piece>, p: Piece)
    ensures Spaced(ps + [p]) == Spaced(ps) + (" " + Show(p))
  {
    SpacedAppend(ps, [p]);
    assert [p][1..] == [];
  }

  /** A command line is its first piece, a blank and the rest. */
  lemma RenderCons(p: Piece, ps: seq<Piece>)
    requires ps != []
    ensures Render([p] + ps) == Show(p) + " " + Render(ps)
  {
    assert ([p] + ps)[1..] == ps;
  }

  /** Appending one piece to a non-empty command appends a blank and its text. */
  lemma RenderSnoc(ps: seq<Piece>, p: Piece)
    requires ps != []
    ensures Render(ps + [p]) == Render(ps) + " " + Show(p)
  {
    var h, x, t := Show(ps[0]), Spaced(ps[1..]), Show(p);
    assert (ps + [p])[0] == ps[0] && (ps + [p])[1..] == ps[1..] + [p];
    SpacedSnoc(ps[1..], p);
    assert Render(ps + [p]) == h + (x + (" " + t));
    Assoc(h, x, " " + t);
    Assoc(h + x, " ", t);
  }

  /** Word splitting: blanks outside double quotes separate words, a double
      quote toggles quoting and starts a word, every other character is taken
      literally. `started` says a word has begun, `cur` is its text so far. */
  function Scan(s: string, quoted: bool, started: bool, cur: string): seq<string>
    decreases |s|
  {
    if s == [] then (if started then [cur] else [])
    else if s[0] == '"' then Scan(s[1..], !quoted, true, cur)
    else if s[0] == ' ' && !quoted then
      (if started then [cur] else []) + Scan(s[1..], false, false, "")
    else Scan(s[1..], quoted, true, cur + [s[0]])
  }

  /** The argument vector a shell makes of the command line `s`. */
  function Words(s: string): seq<string> {
    Scan(s, false, false, "")
  }

  /** The characters that `sh` or `cmd.exe` still interpret between double
      quotes: the quote itself, expansions and escapes. */
  predicate QuoteSpecial(c: char) {
    c == '"' || c == '$' || c == '`' || c == '\\' || c == '%'
  }

  /** The characters that `sh` or `cmd.exe` interpret in an unquoted word:
      white space, quotes, expansions, escapes, operators, globs and the
      braces of brace expansion. */
  predicate BareSpecial(c: char) {
    || QuoteSpecial(c) || c == ' ' || c == '\t' || c == '\n' || c == '\''
    || c == ';' || c == '&' || c == '|' || c == '<' || c == '>' || c == '(' || c == ')'
    || c == '*' || c == '?' || c == '[' || c == ']' || c == '#' || c == '~' || c == '^' || c == '!'
    || c == '{' || c == '}'
  }

  /** A piece that a shell reads back as exactly its own text: it holds none of
      the characters the shell interprets where the piece stands. */
  predicate Literal(p: Piece) {
    match p
    case Bare(s) => s != [] && forall c :: c in s ==> !BareSpecial(c)
    case Quoted(s) => forall c :: c in s ==> !QuoteSpecial(c)
  }

  /** A piece that `Words` reads back as exactly its own text: no double quote,
      and no blank in a bare one. */
  predicate Safe(p: Piece) {
    match p
    case Bare(s) => s != [] && ' ' !in s && '"' !in s
    case Quoted(s) => '"' !in s
  }

  /** What the shell keeps literally, the splitting here keeps whole. */
  lemma LiteralIsSafe(p: Piece)
    requires Literal(p)
    ensures Safe(p)
  {
    assert QuoteSpecial('"') && BareSpecial('"') && BareSpecial(' ');
  }

  predicate AllSafe(ps: seq<Piece>) {
    forall i :: 0 <= i < |ps| ==> Safe(ps[i])
  }

  lemma AllSafeAppend(a: seq<Piece>, b: seq<Piece>)
    requires AllSafe(a) && AllSafe(b)
    ensures AllSafe(a + b)
  {
    forall i | 0 <= i < |a + b| ensures Safe((a + b)[i]) {
      if i >= |a| { assert (a + b)[i] == b[i - |a|]; }
    }
  }

  lemma {:induction false} ScanLiteral(t: string, rest: string, quoted: bool, cur: string)
    requires '"' !in t
    requires !quoted ==> ' ' !in t
    ensures Scan(t + rest, quoted, true, cur) == Scan(rest, quoted, true, cur + t)
  {
    if t != [] {
      assert t[0] in t;
      assert (t + rest)[0] == t[0];
      assert (t + rest)[1..] == t[1..] + rest;
      ScanLiteral(t[1..], rest, quoted, cur + [t[0]]);
      assert [t[0]] + t[1..] == t;
      Assoc(cur, [t[0]], t[1..]);
    } else {
      assert t + rest == rest && cur + t == cur;
    }
  }

  lemma ScanPiece(p: Piece, rest: string)
    requires Safe(p)
    ensures Scan(Show(p) + rest, false, false, "") == Scan(rest, false, true, p.text)
  {
    match p
    case Bare(s) =>
      var t := s + rest;
      assert t[0] == s[0] && t[1..] == s[1..] + rest;
      assert Scan(t, false, false, "") == Scan(s[1..] + rest, false, true, [s[0]]) by {
        assert s[0] in s;
        assert "" + [s[0]] == [s[0]];
      }
      ScanLiteral(s[1..], rest, false, [s[0]]);
      assert [s[0]] + s[1..] == s;
    case Quoted(s) =>
      var q := "\"";
      var t := q + (s + (q + rest));
      assert Show(p) + rest == t by {
        Assoc(q, s, q);
        Assoc(q, s + q, rest);
        Assoc(s, q, rest);
      }
      assert Scan(t, false, false, "") == Scan(s + (q + rest), true, true, "") by {
        assert t[0] == '"' && t[1..] == s + (q + rest);
      }
      ScanLiteral(s, q + rest, true, "");
      assert "" + s == s;
      assert Scan(q + rest, true, true, s) == Scan(rest, false, true, s) by {
        assert (q + rest)[0] == '"' && (q + rest)[1..] == rest;
      }
  }

  lemma {:induction false} ScanSpaced(ps: seq<Piece>, w: string)
    requires AllSafe(ps)
    ensures Scan(Spaced(ps), false, true, w) == [w] + Texts(ps)
  {
    if ps != [] {
      var p, rest := ps[0], ps[1..];
      var tail := Show(p) + Spaced(rest);
      assert Spaced(ps) == " " + tail by {
        Assoc(" ", Show(p), Spaced(rest));
      }
      assert Scan(" " + tail, false, true, w) == [w] + Scan(tail, false, false, "") by {
        assert (" " + tail)[0] == ' ' && (" " + tail)[1..] == tail;
      }
      assert Scan(tail, false, false, "") == Texts(ps) by {
        assert Safe(p) && AllSafe(rest);
        ScanPiece(p, Spaced(rest));
        ScanSpaced(rest, p.text);
        TextsCons(ps);
      }
    }
  }

  /** A command line built from safe pieces splits back into exactly their texts. */
  lemma WordsOfRender(ps: seq<Piece>)
    requires AllSafe(ps)
    ensures Words(Render(ps)) == Texts(ps)
  {
    if ps != [] {
      ScanPiece(ps[0], Spaced(ps[1..]));
      ScanSpaced(ps[1..], ps[0].text);
      TextsCons(ps);
    }
  }
}
