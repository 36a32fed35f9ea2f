/**
 * Tensor shapes as the editor stores them: display strings such as
 * "(N, 3, 224, 224)". Rendering joins the dimension texts with ", " inside
 * parentheses; the nodes read a shape back either by stripping the
 * parentheses and splitting on commas (`Tokens`) or by splitting the raw
 * string (`RawTokens`), which leaves "(" on the first and ")" on the last
 * token. The dimension view `Dim` (a size or a symbolic name such as N or L)
 * is what the rules mean; the lemmas here connect it to the strings.
 */
module Shapes {
  import opened Numbers
  import opened Wrappers
  import Values
  import Text

  /** The placeholder a node shows when it has no usable input. */
  const NotConnected: string := "Not Connected"

  /**
   * `shape ? shape : "Not Connected"`, the rule of every kind that passes its
   * input through: a present shape is forwarded unchanged, an absent one
   * (null, undefined or empty) becomes the placeholder, so the result is
   * always present and propagation goes on.
   */
  function Forward(v: Values.Value): (r: Values.Value)
    ensures Values.Truthy(r)
    ensures Values.Truthy(v) ==> r == v
    ensures !Values.Truthy(v) ==> r == Values.Str(NotConnected)
  {
    if Values.Truthy(v) then v else Values.Str(NotConnected)
  }

  /** `ts[ts.length - 1] = t`: the last token replaced, the others kept in place. */
  function ReplaceLast<T>(ts: seq<T>, t: T): (r: seq<T>)
    requires |ts| >= 1
    ensures |r| == |ts| && r[|r| - 1] == t
    ensures forall i :: 0 <= i < |ts| - 1 ==> r[i] == ts[i]
  {
    ts[..|ts| - 1] + [t]
  }

  /** `", "`, the separator every renderer uses. */
  const CommaSpace: string := ", "

  /** `"(" + ts.join(", ") + ")"`. */
  function RenderTexts(ts: seq<string>): (r: string)
    ensures |r| >= 2 && r[0] == '(' && r[|r| - 1] == ')'
  {
    "(" + Text.Join(ts, CommaSpace) + ")"
  }

  /** Each piece trimmed: `.map(s => s.trim())`. */
  function TrimAll(ps: seq<string>): (r: seq<string>)
    ensures |r| == |ps| && forall i :: 0 <= i < |ps| ==> r[i] == Text.Trim(ps[i])
  {
    seq(|ps|, i requires 0 <= i < |ps| => Text.Trim(ps[i]))
  }

  /** `s.replace(/[()]/g, "").split(",").map(trim)`. */
  function Tokens(s: string): (ts: seq<string>)
    ensures |ts| >= 1
  {
    TrimAll(Text.Split(Text.Remove(s, Text.Parens), ','))
  }

  /** `s.split(",").map(trim)`, the parentheses left in place. */
  function RawTokens(s: string): (ts: seq<string>)
    ensures |ts| >= 1
  {
    TrimAll(Text.Split(s, ','))
  }

  /** A dimension text that rendering and reading back leave unchanged. */
  predicate WellFormedToken(t: string) {
    t != [] && Text.Trimmed(t) && ',' !in t && '(' !in t && ')' !in t
  }

  predicate WellFormedTokens(ts: seq<string>) {
    forall i :: 0 <= i < |ts| ==> WellFormedToken(ts[i])
  }

  /** The pieces `", "`-joining leaves between commas: every token but the first gains a leading space. */
  function Spaced(ts: seq<string>): (ps: seq<string>)
    ensures |ps| == |ts|
  {
    seq(|ts|, i requires 0 <= i < |ts| => if i == 0 then ts[0] else " " + ts[i])
  }

  /** `pre` glued to the first piece and `post` to the last. */
  function Wrapped(ps: seq<string>, pre: string, post: string): (r: seq<string>)
    ensures |r| == |ps|
  {
    seq(|ps|, i requires 0 <= i < |ps| =>
      (if i == 0 then pre else "") + ps[i] + (if i == |ps| - 1 then post else ""))
  }

  /** Joining with ", " is joining the spaced pieces with ",". */
  lemma {:induction false} JoinCommaSpace(ts: seq<string>)
    ensures Text.Join(ts, CommaSpace) == Text.Join(Spaced(ts), ",")
  {
    if |ts| >= 2 {
      JoinCommaSpace(ts[1..]);
      var sp := Spaced(ts[1..]);
      assert Spaced(ts)[1..] == [" " + ts[1]] + sp[1..];
      if |ts| > 2 {
        assert Text.Join(Spaced(ts)[1..], ",") == " " + ts[1] + "," + Text.Join(sp[1..], ",");
        assert Text.Join(sp, ",") == ts[1] + "," + Text.Join(sp[1..], ",");
      }
    }
  }

  /** Characters added around a join land on its first and last pieces. */
  lemma {:induction false} JoinWrap(ps: seq<string>, sep: string, pre: string, post: string)
    requires |ps| >= 1
    ensures pre + Text.Join(ps, sep) + post == Text.Join(Wrapped(ps, pre, post), sep)
  {
    if |ps| >= 2 {
      JoinWrap(ps[1..], sep, "", post);
      assert Wrapped(ps, pre, post)[1..] == Wrapped(ps[1..], "", post);
      assert "" + Text.Join(ps[1..], sep) == Text.Join(ps[1..], sep);
    }
  }

  /** Joining texts that avoid a character (the separator included) gives a text avoiding it. */
  lemma {:induction false} JoinAvoids(ts: seq<string>, sep: string, c: char)
    requires c !in sep && forall i :: 0 <= i < |ts| ==> c !in ts[i]
    ensures c !in Text.Join(ts, sep)
  {
    if |ts| >= 2 {
      JoinAvoids(ts[1..], sep, c);
    }
  }

  /** Trimming the spaced pieces of well-formed tokens gives the tokens back. */
  lemma TrimSpaced(ts: seq<string>)
    requires WellFormedTokens(ts)
    ensures TrimAll(Spaced(ts)) == ts
  {
    forall i | 0 <= i < |ts|
      ensures Text.Trim(Spaced(ts)[i]) == ts[i]
    {
      TrimSpacedAt(ts[i], if i == 0 then "" else " ");
      assert Spaced(ts)[i] == (if i == 0 then "" else " ") + ts[i];
    }
  }

  /** A trimmed text behind no space or one space trims back to itself. */
  lemma TrimSpacedAt(t: string, w: string)
    requires Text.Trimmed(t) && (w == "" || w == " ")
    ensures Text.Trim(w + t) == t
  {
    Text.TrimLeadingSpace(w, t);
  }

  /** Stripping the parentheses of a rendered shape leaves the ", "-joined tokens. */
  lemma RemoveParensOfRender(ts: seq<string>)
    requires WellFormedTokens(ts)
    ensures Text.Remove(RenderTexts(ts), Text.Parens) == Text.Join(ts, CommaSpace)
  {
    var j := Text.Join(ts, CommaSpace);
    JoinAvoids(ts, CommaSpace, '(');
    JoinAvoids(ts, CommaSpace, ')');
    Text.RemoveAppend("(" + j, ")", Text.Parens);
    Text.RemoveAppend("(", j, Text.Parens);
    assert Text.Remove(")", Text.Parens) == "";
    assert Text.Remove("(", Text.Parens) == "";
  }

  /** Reading a rendered shape gives back the tokens it was rendered from. */
  lemma TokensOfRender(ts: seq<string>)
    requires |ts| >= 1 && WellFormedTokens(ts)
    ensures Tokens(RenderTexts(ts)) == ts
  {
    RemoveParensOfRender(ts);
    JoinCommaSpace(ts);
    Text.SplitJoin(Spaced(ts), ',');
    TrimSpaced(ts);
  }

  /** The raw tokens of a rendered shape: "(" stays on the first, ")" on the last. */
  function Bracketed(ts: seq<string>): (r: seq<string>)
    ensures |r| == |ts|
  {
    Wrapped(ts, "(", ")")
  }

  /** Splitting a rendered shape without stripping it keeps the parentheses on the outer tokens. */
  lemma RawTokensOfRender(ts: seq<string>)
    requires |ts| >= 1 && WellFormedTokens(ts)
    ensures RawTokens(RenderTexts(ts)) == Bracketed(ts)
  {
    JoinCommaSpace(ts);
    var sp := Spaced(ts);
    JoinWrap(sp, ",", "(", ")");
    var w := Wrapped(sp, "(", ")");
    WrappedPiecesTrim(ts);
    Text.SplitJoin(w, ',');
  }

  /** Each wrapped, spaced piece has no comma and trims to the bracketed token. */
  lemma WrappedPiecesTrim(ts: seq<string>)
    requires |ts| >= 1 && WellFormedTokens(ts)
    ensures |Wrapped(Spaced(ts), "(", ")")| == |ts|
    ensures forall i :: 0 <= i < |ts| ==>
              ',' !in Wrapped(Spaced(ts), "(", ")")[i] && Text.Trim(Wrapped(Spaced(ts), "(", ")")[i]) == Bracketed(ts)[i]
  {
    var w := Wrapped(Spaced(ts), "(", ")");
    forall i | 0 <= i < |ts|
      ensures ',' !in w[i] && Text.Trim(w[i]) == Bracketed(ts)[i]
    {
      WrappedSpacedAt(ts, i);
      BracketedTrimmed(ts, i);
      TrimSpacedAt(Bracketed(ts)[i], if i == 0 then "" else " ");
    }
  }

  /** Piece `i` of the wrapped, spaced tokens is the bracketed token behind its space. */
  lemma WrappedSpacedAt(ts: seq<string>, i: int)
    requires WellFormedTokens(ts) && 0 <= i < |ts|
    ensures Wrapped(Spaced(ts), "(", ")")[i] == (if i == 0 then "" else " ") + Bracketed(ts)[i]
    ensures ',' !in Wrapped(Spaced(ts), "(", ")")[i]
  {
    var pre := if i == 0 then "(" else "";
    var post := if i == |ts| - 1 then ")" else "";
    var sp := if i == 0 then "" else " ";
    assert Wrapped(Spaced(ts), "(", ")")[i] == pre + (sp + ts[i]) + post;
    assert Bracketed(ts)[i] == pre + ts[i] + post;
    assert ',' !in pre && ',' !in sp && ',' !in post;
  }

  /** A bracketed token has no whitespace at its ends. */
  lemma BracketedTrimmed(ts: seq<string>, i: int)
    requires WellFormedTokens(ts) && 0 <= i < |ts|
    ensures Text.Trimmed(Bracketed(ts)[i])
  {
    var b := Bracketed(ts)[i];
    var t := ts[i];
    assert b == (if i == 0 then "(" else "") + t + (if i == |ts| - 1 then ")" else "");
    assert b[0] == (if i == 0 then '(' else t[0]);
    assert b[|b| - 1] == (if i == |ts| - 1 then ')' else t[|t| - 1]);
  }

  /** The bracketed pieces of two or more tokens, piece by piece. */
  lemma BracketedAt(ts: seq<string>)
    requires |ts| >= 2
    ensures Bracketed(ts)[0] == "(" + ts[0] && Bracketed(ts)[|ts| - 1] == ts[|ts| - 1] + ")"
    ensures forall i :: 0 < i < |ts| - 1 ==> Bracketed(ts)[i] == ts[i]
  {
    assert Bracketed(ts)[0] == "(" + ts[0] + "";
    assert Bracketed(ts)[|ts| - 1] == "" + ts[|ts| - 1] + ")";
    forall i | 0 < i < |ts| - 1
      ensures Bracketed(ts)[i] == ts[i]
    {
      assert Bracketed(ts)[i] == "" + ts[i] + "";
    }
  }

  /** The raw tokens of a rendered shape of rank two or more, token by token. */
  lemma RawTokensAt(ts: seq<string>)
    requires |ts| >= 2 && WellFormedTokens(ts)
    ensures var raw := RawTokens(RenderTexts(ts));
            |raw| == |ts| && raw[0] == "(" + ts[0] && raw[|ts| - 1] == ts[|ts| - 1] + ")"
            && forall i :: 0 < i < |ts| - 1 ==> raw[i] == ts[i]
  {
    RawTokensOfRender(ts);
    BracketedAt(ts);
  }

  /** The one raw token of a rendered rank-one shape carries both parentheses. */
  lemma RawTokensOfRankOne(t0: string)
    requires WellFormedToken(t0)
    ensures RawTokens(RenderTexts([t0])) == ["(" + t0 + ")"]
  {
    RawTokensOfRender([t0]);
  }

  /**
   * Splitting a rendered shape of rank two or more, replacing the last raw
   * token and appending ")" renders the shape with its last token replaced:
   * the "(" kept on the first token and the ")" lost with the last one cancel out.
   */
  lemma ReplaceLastOfRender(ts: seq<string>, t: string)
    requires |ts| >= 2 && WellFormedTokens(ts)
    ensures Text.Join(ReplaceLast(RawTokens(RenderTexts(ts)), t), CommaSpace) + ")"
            == RenderTexts(ReplaceLast(ts, t))
  {
    RawTokensOfRender(ts);
    var r := ReplaceLast(ts, t);
    forall i | 0 <= i < |ts|
      ensures ReplaceLast(Bracketed(ts), t)[i] == Wrapped(r, "(", "")[i]
    {
      if i == 0 {
        assert Bracketed(ts)[0] == "(" + ts[0] + "";
        assert Wrapped(r, "(", "")[0] == "(" + ts[0] + "";
      } else if i < |ts| - 1 {
        assert Bracketed(ts)[i] == "" + ts[i] + "";
        assert Wrapped(r, "(", "")[i] == "" + ts[i] + "";
      } else {
        assert Wrapped(r, "(", "")[i] == "" + t + "";
      }
    }
    assert ReplaceLast(Bracketed(ts), t) == Wrapped(r, "(", "");
    JoinWrap(r, CommaSpace, "(", "");
    assert "(" + Text.Join(r, CommaSpace) + "" == "(" + Text.Join(r, CommaSpace);
  }

  /** For a rank-one shape the only token carries both parentheses, so both are lost: "(32)" becomes t + ")". */
  lemma ReplaceLastOfRankOne(t0: string, t: string)
    requires WellFormedToken(t0)
    ensures Text.Join(ReplaceLast(RawTokens(RenderTexts([t0])), t), CommaSpace) + ")" == t + ")"
  {
    RawTokensOfRender([t0]);
  }

  // ---------------------------------------------------------------------
  // Dimensions

  predicate IsLetter(c: char) { 'a' <= c <= 'z' || 'A' <= c <= 'Z' }

  /** A symbolic dimension name such as N, C, L, Hout or Lout. */
  predicate ValidSym(s: string) {
    s != [] && IsLetter(s[0]) && forall i :: 0 <= i < |s| ==> IsLetter(s[i]) || IsDigit(s[i]) || s[i] == '_'
  }

  /** One dimension of a tensor: a concrete size or a symbolic name. */
  datatype Dim = Size(n: int) | Sym(name: string)

  predicate ValidDim(d: Dim) {
    d.Sym? ==> ValidSym(d.name)
  }

  predicate ValidDims(ds: seq<Dim>) {
    forall i :: 0 <= i < |ds| ==> ValidDim(ds[i])
  }

  function DimText(d: Dim): string {
    match d
    case Size(n) => IntText(n)
    case Sym(name) => name
  }

  function DimTexts(ds: seq<Dim>): (ts: seq<string>)
    ensures |ts| == |ds| && forall i :: 0 <= i < |ds| ==> ts[i] == DimText(ds[i])
  {
    seq(|ds|, i requires 0 <= i < |ds| => DimText(ds[i]))
  }

  /** The display string of a list of dimensions. */
  function Render(ds: seq<Dim>): string {
    RenderTexts(DimTexts(ds))
  }

  /** Replacing the last dimension replaces the last dimension text. */
  lemma DimTextsReplaceLast(ds: seq<Dim>, d: Dim)
    requires |ds| >= 1
    ensures DimTexts(ReplaceLast(ds, d)) == ReplaceLast(DimTexts(ds), DimText(d))
  {
    var a, b := DimTexts(ReplaceLast(ds, d)), ReplaceLast(DimTexts(ds), DimText(d));
    assert |a| == |b|;
    forall i | 0 <= i < |a|
      ensures a[i] == b[i]
    {
    }
  }

  /** The last text of a list of dimensions is the text of its last dimension. */
  lemma LastDimText(ds: seq<Dim>)
    requires |ds| >= 1
    ensures DimTexts(ds)[|ds| - 1] == DimText(ds[|ds| - 1])
  {
  }

  /** `parseInt` sees a size in a size's text and NaN in a name, whatever non-digit follows. */
  lemma ParseIntOfDimText(d: Dim, rest: string)
    requires ValidDim(d)
    requires rest == [] || !IsDigit(rest[0])
    ensures JsParseInt(DimText(d) + rest) == (if d.Size? then Some(d.n) else None)
  {
    if d.Size? {
      ParseIntOfIntText(d.n, rest);
    } else {
      ParseIntOfName(d.name, rest);
    }
  }

  /** `parseInt` finds no digit at the start of a name. */
  lemma ParseIntOfName(name: string, rest: string)
    requires ValidSym(name)
    ensures JsParseInt(name + rest) == None
  {
    var s := name + rest;
    assert s[0] == name[0];
    Text.TrimNoSpace(s);
    assert Unsigned(s) == s;
  }

  /** Dimension texts are well-formed tokens. */
  lemma DimTextsWellFormed(ds: seq<Dim>)
    requires ValidDims(ds)
    ensures WellFormedTokens(DimTexts(ds))
  {
    forall i | 0 <= i < |ds|
      ensures WellFormedToken(DimTexts(ds)[i])
    {
      var t := DimText(ds[i]);
      if ds[i].Size? {
        var n := ds[i].n;
        var digits := NatText(Abs(n));
        assert t == (if n < 0 then "-" else "") + digits;
        assert IsDigit(digits[0]) && IsDigit(digits[|digits| - 1]);
        assert t[|t| - 1] == digits[|digits| - 1];
        assert forall j :: 0 <= j < |t| ==> t[j] == '-' || IsDigit(t[j]);
      }
    }
  }

  /** A rendered list of dimensions still has text once its parentheses are stripped. */
  lemma StrippedRenderNonEmpty(ds: seq<Dim>)
    requires |ds| >= 1 && ValidDims(ds)
    ensures Text.Remove(Render(ds), Text.Parens) != ""
  {
    var texts := DimTexts(ds);
    DimTextsWellFormed(ds);
    RemoveParensOfRender(texts);
    assert texts[0] != "";
    if |texts| > 1 {
      assert Text.Join(texts, CommaSpace) == texts[0] + CommaSpace + Text.Join(texts[1..], CommaSpace);
    }
  }

  /** Reading a rendered list of dimensions gives back their texts. */
  lemma TokensOfRenderDims(ds: seq<Dim>)
    requires |ds| >= 1 && ValidDims(ds)
    ensures Render(ds) != "" && Tokens(Render(ds)) == DimTexts(ds)
  {
    assert Render(ds)[0] == '(';
    DimTextsWellFormed(ds);
    TokensOfRender(DimTexts(ds));
  }
}
