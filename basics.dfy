/** Small value types and string helpers shared by every module of the model. */
module Basics {

  datatype Option<T> = None | Some(value: T)

  /** A prompt held in an editable text cell: either the composer's prompt,
      kept as its structured fields, or whatever text the user typed over it. */
  datatype PromptText<P> = Composed(prompt: P) | Edited(text: string)
  {
    /** JavaScript truthiness of the cell: a composed prompt is never empty
        (its template has fixed text), an edited one is empty when it is "". */
    predicate IsBlank() {
      Edited? && text == ""
    }
  }

  function Min(a: int, b: int): int { if a <= b then a else b }
  function Max(a: int, b: int): int { if a <= b then b else a }

  /** Array.prototype.join: the parts with `sep` between consecutive ones. */
  function Join(parts: seq<string>, sep: string): string
    decreases |parts|
  {
    if |parts| == 0 then ""
    else if |parts| == 1 then parts[0]
    else parts[0] + sep + Join(parts[1..], sep)
  }

  /** `s` has no occurrence of `c`. */
  predicate Avoids(s: string, c: char) {
    forall k :: 0 <= k < |s| ==> s[k] != c
  }

  /** String.prototype.split with a non-empty separator: the pieces between
      the leftmost non-overlapping occurrences of `sep`; "" splits into [""]. */
  function Split(s: string, sep: string): (r: seq<string>)
    requires sep != ""
    ensures |r| > 0
    decreases |s|
  {
    if |s| == 0 then [""]
    else if |sep| <= |s| && s[..|sep|] == sep then [""] + Split(s[|sep|..], sep)
    else var rest := Split(s[1..], sep); [[s[0]] + rest[0]] + rest[1..]
  }

  /** A piece without the separator's first character is read whole into the
      first piece of the split. */
  lemma {:induction false} SplitAfterPiece(p: string, t: string, sep: string)
    requires sep != "" && Avoids(p, sep[0])
    ensures Split(p + t, sep) == [p + Split(t, sep)[0]] + Split(t, sep)[1..]
    decreases |p|
  {
    var r := Split(t, sep);
    if |p| == 0 {
      assert p + t == t;
      assert p + r[0] == r[0];
      assert [r[0]] + r[1..] == r;
    } else {
      var s := p + t;
      assert s[0] == p[0];
      assert s[1..] == p[1..] + t;
      SplitAfterPiece(p[1..], t, sep);
      assert [p[0]] + (p[1..] + r[0]) == p + r[0];
    }
  }

  /** A leading separator splits off an empty first piece. */
  lemma SplitLeadingSep(rest: string, sep: string)
    requires sep != ""
    ensures Split(sep + rest, sep) == [""] + Split(rest, sep)
  {
    var t := sep + rest;
    assert t[..|sep|] == sep && t[|sep|..] == rest;
  }

  /** The join of two or more parts is the first part, the separator and the
      join of the others. */
  lemma JoinCons(parts: seq<string>, sep: string)
    requires |parts| > 1
    ensures Join(parts, sep) == parts[0] + (sep + Join(parts[1..], sep))
  {
  }

  /** Splitting at the separator the parts were joined with gives the parts
      back, when no part holds the separator's first character. */
  lemma {:induction false} SplitJoin(parts: seq<string>, sep: string)
    requires sep != "" && |parts| > 0
    requires forall i :: 0 <= i < |parts| ==> Avoids(parts[i], sep[0])
    ensures Split(Join(parts, sep), sep) == parts
    decreases |parts|
  {
    if |parts| == 1 {
      SplitAfterPiece(parts[0], "", sep);
      assert parts[0] + "" == parts[0];
    } else {
      var rest := Join(parts[1..], sep);
      SplitJoin(parts[1..], sep);
      SplitLeadingSep(rest, sep);
      var r := Split(sep + rest, sep);
      assert r == [""] + parts[1..];
      SplitAfterPiece(parts[0], sep + rest, sep);
      JoinCons(parts, sep);
      assert r[0] == "" && r[1..] == parts[1..];
      assert parts[0] + "" == parts[0];
      assert [parts[0]] + parts[1..] == parts;
    }
  }

  /** A join avoids a character that its parts and its separator avoid. */
  lemma {:induction false} JoinAvoids(parts: seq<string>, sep: string, c: char)
    requires Avoids(sep, c) && forall i :: 0 <= i < |parts| ==> Avoids(parts[i], c)
    ensures Avoids(Join(parts, sep), c)
    decreases |parts|
  {
    if |parts| > 1 {
      JoinAvoids(parts[1..], sep, c);
      var j := Join(parts, sep);
      var a, b := parts[0] + sep, Join(parts[1..], sep);
      assert j == a + b;
      forall k | 0 <= k < |j| ensures j[k] != c {
        if k < |parts[0]| { assert j[k] == parts[0][k]; }
        else if k < |a| { assert j[k] == sep[k - |parts[0]|]; }
        else { assert j[k] == b[k - |a|]; }
      }
    }
  }

  /** The characters String.prototype.trim removes: the ECMAScript WhiteSpace
      and LineTerminator code points. */
  predicate IsJsSpace(c: char) {
    c == '\t' || c == '\n' || c == '\U{000B}' || c == '\U{000C}' || c == '\r' || c == ' '
    || c == '\U{00A0}' || c == '\U{1680}' || ('\U{2000}' <= c <= '\U{200A}')
    || c == '\U{2028}' || c == '\U{2029}' || c == '\U{202F}' || c == '\U{205F}'
    || c == '\U{3000}' || c == '\U{FEFF}'
  }

  function TrimStart(s: string): string
    decreases |s|
  {
    if |s| > 0 && IsJsSpace(s[0]) then TrimStart(s[1..]) else s
  }

  function TrimEnd(s: string): string
    decreases |s|
  {
    if |s| > 0 && IsJsSpace(s[|s| - 1]) then TrimEnd(s[..|s| - 1]) else s
  }

  /** String.prototype.trim. */
  function Trim(s: string): string {
    TrimEnd(TrimStart(s))
  }

  /** True when some character of `s` is not whitespace. */
  ghost predicate HasNonSpace(s: string) {
    exists i :: 0 <= i < |s| && !IsJsSpace(s[i])
  }

  /** The leading whitespace TrimStart drops: it ends at index `k`. */
  lemma {:induction false} TrimStartShape(s: string) returns (k: nat)
    ensures k <= |s| && TrimStart(s) == s[k..]
    ensures forall i :: 0 <= i < k ==> IsJsSpace(s[i])
    ensures k < |s| ==> !IsJsSpace(s[k])
    decreases |s|
  {
    if |s| > 0 && IsJsSpace(s[0]) {
      var j := TrimStartShape(s[1..]);
      k := j + 1;
      assert s[1..][j..] == s[k..];
      forall i | 0 <= i < k ensures IsJsSpace(s[i]) {
        if i > 0 { assert s[i] == s[1..][i - 1]; }
      }
    } else {
      k := 0;
    }
  }

  /** The trailing whitespace TrimEnd drops: it starts at index `k`. */
  lemma {:induction false} TrimEndShape(s: string) returns (k: nat)
    ensures k <= |s| && TrimEnd(s) == s[..k]
    ensures forall i :: k <= i < |s| ==> IsJsSpace(s[i])
    ensures k > 0 ==> !IsJsSpace(s[k - 1])
    decreases |s|
  {
    if |s| > 0 && IsJsSpace(s[|s| - 1]) {
      var p := s[..|s| - 1];
      k := TrimEndShape(p);
      assert p[..k] == s[..k];
      forall i | k <= i < |s| ensures IsJsSpace(s[i]) {
        if i < |s| - 1 { assert s[i] == p[i]; }
      }
      if k > 0 { assert s[k - 1] == p[k - 1]; }
    } else {
      k := |s|;
    }
  }

  /** Trim keeps s[a..b]: whitespace before a and from b on, and a
      non-space character at each end of what is kept. */
  lemma TrimBounds(s: string) returns (a: nat, b: nat)
    ensures a <= b <= |s| && Trim(s) == s[a..b]
    ensures forall i :: 0 <= i < a ==> IsJsSpace(s[i])
    ensures forall i :: b <= i < |s| ==> IsJsSpace(s[i])
    ensures a < b ==> !IsJsSpace(s[a]) && !IsJsSpace(s[b - 1])
  {
    a := TrimStartShape(s);
    var t := s[a..];
    var k := TrimEndShape(t);
    b := a + k;
    assert t[..k] == s[a..b];
    forall i | b <= i < |s| ensures IsJsSpace(s[i]) {
      assert s[i] == t[i - a];
    }
    if a < b {
      assert s[a] == t[0];
      assert s[b - 1] == t[k - 1];
    }
  }

  /** Trimming removes only surrounding whitespace: the result is a slice of the
      input, it neither starts nor ends with whitespace, and it is empty exactly
      when the input holds whitespace only. */
  lemma TrimSpec(s: string)
    ensures exists a, b :: 0 <= a <= b <= |s| && Trim(s) == s[a..b]
    ensures |Trim(s)| > 0 ==> !IsJsSpace(Trim(s)[0]) && !IsJsSpace(Trim(s)[|Trim(s)| - 1])
    ensures Trim(s) != "" <==> HasNonSpace(s)
  {
    var a, b := TrimBounds(s);
    if Trim(s) != "" {
      assert Trim(s)[0] == s[a];
      assert Trim(s)[|Trim(s)| - 1] == s[b - 1];
    }
    if HasNonSpace(s) {
      var j :| 0 <= j < |s| && !IsJsSpace(s[j]);
      assert a <= j < b;
    }
  }
}
