/** The string operations the pipeline performs: f-string rendering of a field, `str.strip`, `str.replace`. */
module Text {
  import opened News

  /** `str.isspace` for one character. */
  predicate IsSpace(c: char) {
    c == ' ' || ('\U{0009}' <= c <= '\U{000D}') || ('\U{001C}' <= c <= '\U{001F}')
    || c == '\U{0085}' || c == '\U{00A0}' || c == '\U{1680}' || ('\U{2000}' <= c <= '\U{200A}')
    || c == '\U{2028}' || c == '\U{2029}' || c == '\U{202F}' || c == '\U{205F}' || c == '\U{3000}'
  }

  predicate IsBlank(s: string) {
    forall i :: 0 <= i < |s| ==> IsSpace(s[i])
  }

  function TrimStart(s: string): (r: string)
    ensures |r| <= |s| && r == s[|s| - |r|..]
    ensures r != [] ==> !IsSpace(r[0])
  {
    if s != [] && IsSpace(s[0]) then TrimStart(s[1..]) else s
  }

  function TrimEnd(s: string): (r: string)
    ensures |r| <= |s| && r == s[..|r|]
    ensures r != [] ==> !IsSpace(r[|r| - 1])
  {
    if s != [] && IsSpace(s[|s| - 1]) then TrimEnd(s[..|s| - 1]) else s
  }

  /** `s.strip()`. */
  function Strip(s: string): (r: string)
    ensures |r| <= |s|
    ensures r != [] ==> !IsSpace(r[0]) && !IsSpace(r[|r| - 1])
  {
    TrimEnd(TrimStart(s))
  }

  lemma {:induction false} TrimStartEmpty(s: string)
    ensures TrimStart(s) == [] <==> IsBlank(s)
  {
    if s != [] && IsSpace(s[0]) {
      TrimStartEmpty(s[1..]);
      assert IsBlank(s[1..]) ==> IsBlank(s) by {
        if IsBlank(s[1..]) {
          forall i | 0 <= i < |s| ensures IsSpace(s[i]) {
            if i > 0 { assert s[i] == s[1..][i - 1]; }
          }
        }
      }
    }
  }

  lemma {:induction false} TrimStartHead(s: string)
    ensures TrimStart(s) != [] ==> !IsSpace(TrimStart(s)[0])
  {
    if s != [] && IsSpace(s[0]) {
      TrimStartHead(s[1..]);
    }
  }

  lemma {:induction false} TrimEndKeepsHead(s: string)
    requires s != [] && !IsSpace(s[0])
    ensures TrimEnd(s) != [] && TrimEnd(s)[0] == s[0]
  {
    if IsSpace(s[|s| - 1]) {
      TrimEndKeepsHead(s[..|s| - 1]);
    }
  }

  /** `s.strip()` is empty exactly when `s` is all whitespace. */
  lemma StripEmpty(s: string)
    ensures Strip(s) == [] <==> IsBlank(s)
  {
    TrimStartEmpty(s);
    TrimStartHead(s);
    if TrimStart(s) != [] {
      TrimEndKeepsHead(TrimStart(s));
    }
  }

  /** How `f"{value}"` renders a field read with `get(key, "")`: a JSON null prints as `None`. */
  function Render(t: JsonText): string {
    match t
    case Missing => ""
    case Null => "None"
    case Text(s) => s
  }

  /** `f"{title} {description}".strip()`. */
  function CombinedText(a: Article): (r: string)
    ensures |r| <= |Render(a.title)| + 1 + |Render(a.description)|
    ensures r != [] ==> !IsSpace(r[0]) && !IsSpace(r[|r| - 1])
  {
    Strip(Render(a.title) + " " + Render(a.description))
  }

  /** Two strings joined by a space are blank exactly when both are. */
  lemma BlankJoin(t: string, d: string)
    ensures IsBlank(t + " " + d) <==> IsBlank(t) && IsBlank(d)
  {
    var s := t + " " + d;
    if IsBlank(s) {
      forall i | 0 <= i < |t| ensures IsSpace(t[i]) { assert t[i] == s[i]; }
      forall i | 0 <= i < |d| ensures IsSpace(d[i]) { assert d[i] == s[|t| + 1 + i]; }
    }
    if IsBlank(t) && IsBlank(d) {
      forall i | 0 <= i < |s| ensures IsSpace(s[i]) {
        if i < |t| { assert s[i] == t[i]; }
        else if i > |t| { assert s[i] == d[i - |t| - 1]; }
      }
    }
  }

  /** The combined text is empty exactly when both fields render as whitespace only. */
  lemma CombinedTextEmpty(a: Article)
    ensures CombinedText(a) == [] <==> IsBlank(Render(a.title)) && IsBlank(Render(a.description))
  {
    StripEmpty(Render(a.title) + " " + Render(a.description));
    BlankJoin(Render(a.title), Render(a.description));
  }

  /** An article with `null` title and description is NOT blank: it renders as "None None". */
  lemma NullFieldsAreNotBlank(a: Article)
    requires a.title == Null && a.description == Null
    ensures CombinedText(a) == "None None"
  {
    assert Render(a.title) + " " + Render(a.description) == "None None";
    assert TrimStart("None None") == "None None";
    assert TrimEnd("None None") == "None None";
  }

  /** `s.replace(target, replacement)` for a one-character `target`, every occurrence. */
  function ReplaceChar(s: string, target: char, replacement: string): (r: string)
    ensures target !in replacement ==> target !in r
  {
    if s == [] then []
    else (if s[0] == target then replacement else [s[0]]) + ReplaceChar(s[1..], target, replacement)
  }
}
