/**
 * The JavaScript string operations the presentation agent relies on, over `seq<char>`:
 * `toLowerCase`/`toUpperCase` (ASCII letters only), `includes`, `startsWith`, `trim`,
 * `split` on one character, `join`, and the agent's own `capitalizeWords` helper.
 */
module Strings {

  /** `toLowerCase` on one character; only the ASCII letters are mapped. */
  function LowerChar(c: char): char {
    if 'A' <= c <= 'Z' then (c as int + 32) as char else c
  }

  /** `toUpperCase` on one character; only the ASCII letters are mapped. */
  function UpperChar(c: char): char {
    if 'a' <= c <= 'z' then (c as int - 32) as char else c
  }

  /** `String.prototype.toLowerCase`. */
  function Lower(s: string): string {
    seq(|s|, i requires 0 <= i < |s| => LowerChar(s[i]))
  }

  /** Lower-casing commutes with taking a slice. */
  lemma LowerSlice(s: string, i: nat, j: nat)
    requires i <= j <= |s|
    ensures Lower(s)[i..j] == Lower(s[i..j])
  {
  }

  /** `String.prototype.includes`: `sub` occurs somewhere in `s` as a contiguous run. */
  predicate Contains(s: string, sub: string) {
    exists i | 0 <= i <= |s| - |sub| :: OccursAt(s, sub, i)
  }

  /** `sub` occurs in `s` starting at index `i`. */
  predicate OccursAt(s: string, sub: string, i: int) {
    0 <= i <= |s| - |sub| && s[i..i + |sub|] == sub
  }

  /** `String.prototype.startsWith`. */
  predicate StartsWith(s: string, prefix: string) {
    |prefix| <= |s| && s[..|prefix|] == prefix
  }

  /**
   * The characters `trim` and the regular-expression class `\s` remove: the ECMAScript white
   * space (tab, vertical tab, form feed, the byte-order mark and the space separators) and
   * the line terminators.
   */
  predicate IsSpace(c: char) {
    || c == ' ' || c == '\t' || c == '\n' || c == '\r' || c as int == 0x0B || c as int == 0x0C
    || c as int == 0xA0 || c as int == 0xFEFF || c as int == 0x1680
    || 0x2000 <= c as int <= 0x200A || c as int == 0x2028 || c as int == 0x2029
    || c as int == 0x202F || c as int == 0x205F || c as int == 0x3000
  }

  predicate IsDigit(c: char) {
    '0' <= c <= '9'
  }

  /** Removes the longest prefix whose characters all satisfy `drop` (the regular-expression replacements anchored at the start). */
  function DropWhile(s: string, drop: char -> bool): (r: string)
    ensures |r| <= |s|
    ensures r == s[|s| - |r|..]
    ensures forall k | 0 <= k < |s| - |r| :: drop(s[k])
    ensures r == [] || !drop(r[0])
  {
    if |s| > 0 && drop(s[0]) then DropWhile(s[1..], drop) else s
  }

  /** `trimStart`: the suffix left after the leading white space. */
  function TrimStart(s: string): (r: string)
    ensures |r| <= |s|
    ensures r == s[|s| - |r|..]
    ensures forall k | 0 <= k < |s| - |r| :: IsSpace(s[k])
    ensures r == [] || !IsSpace(r[0])
  {
    DropWhile(s, IsSpace)
  }

  /** `trimEnd`: the prefix left before the trailing white space. */
  function TrimEnd(s: string): (r: string)
    ensures |r| <= |s|
    ensures r == s[..|r|]
    ensures forall k | |r| <= k < |s| :: IsSpace(s[k])
    ensures r == [] || !IsSpace(r[|r| - 1])
  {
    if |s| > 0 && IsSpace(s[|s| - 1]) then TrimEnd(s[..|s| - 1]) else s
  }

  /** `String.prototype.trim`. */
  function Trim(s: string): (r: string)
    ensures |r| <= |s|
    ensures r == [] || (!IsSpace(r[0]) && !IsSpace(r[|r| - 1]))
  {
    TrimEnd(TrimStart(s))
  }

  /**
   * `trim` removes the leading and trailing white space and nothing else: its result is the
   * slice `s[i..j]` with only white space before `i` and after `j`.
   */
  lemma TrimSlice(s: string)
    ensures exists i, j | 0 <= i <= j <= |s| ::
      && Trim(s) == s[i..j]
      && (forall k | 0 <= k < i :: IsSpace(s[k]))
      && (forall k | j <= k < |s| :: IsSpace(s[k]))
  {
    var t := TrimStart(s);
    var r := TrimEnd(t);
    var i := |s| - |t|;
    assert r == s[i..i + |r|];
    assert forall k | i + |r| <= k < |s| :: s[k] == t[k - i];
  }

  /** `s.split(d)` for a one-character separator: the pieces between the occurrences of `d`. */
  function Split(s: string, d: char): (r: seq<string>)
    ensures |r| >= 1
  {
    if |s| == 0 then [""]
    else
      var rest := Split(s[1..], d);
      if s[0] == d then [""] + rest else [[s[0]] + rest[0]] + rest[1..]
  }

  /** No piece of a split contains the separator. */
  lemma {:induction false} SplitPieces(s: string, d: char)
    ensures forall k | 0 <= k < |Split(s, d)| :: d !in Split(s, d)[k]
  {
    if |s| > 0 {
      SplitPieces(s[1..], d);
    }
  }

  /** `ws.join(sep)`. */
  function Join(ws: seq<string>, sep: string): string {
    if |ws| == 0 then ""
    else if |ws| == 1 then ws[0]
    else ws[0] + sep + Join(ws[1..], sep)
  }

  /** Joining the pieces of a split with the same separator gives back the string. */
  lemma {:induction false} JoinSplit(s: string, d: char)
    ensures Join(Split(s, d), [d]) == s
  {
    if |s| > 0 {
      var rest := Split(s[1..], d);
      JoinSplit(s[1..], d);
      if s[0] == d {
        assert Split(s, d) == [""] + rest;
        assert ([""] + rest)[1..] == rest;
      } else {
        JoinConsHead(s[0], rest[0], rest[1..], [d]);
        assert [rest[0]] + rest[1..] == rest;
      }
    }
  }

  lemma JoinConsHead(c: char, w: string, ws: seq<string>, sep: string)
    ensures Join([[c] + w] + ws, sep) == [c] + Join([w] + ws, sep)
  {
    assert ([[c] + w] + ws)[1..] == ws;
    assert ([w] + ws)[1..] == ws;
  }

  /** `word.charAt(0).toUpperCase() + word.slice(1)`. */
  function CapWord(w: string): string {
    if w == "" then "" else [UpperChar(w[0])] + w[1..]
  }

  function CapAll(ws: seq<string>): (r: seq<string>)
    ensures |r| == |ws|
  {
    seq(|ws|, i requires 0 <= i < |ws| => CapWord(ws[i]))
  }

  /** The agent's `capitalizeWords`: split on spaces, upper-case each word's first letter, re-join. */
  function CapitalizeWords(s: string): string {
    if s == "" then "" else Join(CapAll(Split(s, ' ')), " ")
  }

  /** Character by character: upper-case exactly the characters that start a word. */
  function CapFrom(s: string, atStart: bool): (r: string)
    ensures |r| == |s|
  {
    if s == [] then []
    else [if atStart then UpperChar(s[0]) else s[0]] + CapFrom(s[1..], s[0] == ' ')
  }

  /** The words after `capitalizeWords` when the first word is (`atStart`) or is not capitalised. */
  function CapSel(ws: seq<string>, atStart: bool): seq<string>
    requires |ws| >= 1
  {
    if atStart then CapAll(ws) else [ws[0]] + CapAll(ws[1..])
  }

  lemma {:induction false} CapJoin(s: string, atStart: bool)
    ensures Join(CapSel(Split(s, ' '), atStart), " ") == CapFrom(s, atStart)
  {
    if |s| > 0 {
      CapJoin(s[1..], s[0] == ' ');
      if s[0] == ' ' {
        CapJoinSpace(s, atStart);
      } else {
        CapJoinLetter(s, atStart);
      }
    }
  }

  lemma CapJoinSpace(s: string, atStart: bool)
    requires |s| > 0 && s[0] == ' '
    requires Join(CapSel(Split(s[1..], ' '), true), " ") == CapFrom(s[1..], true)
    ensures Join(CapSel(Split(s, ' '), atStart), " ") == CapFrom(s, atStart)
  {
    var rest := Split(s[1..], ' ');
    assert Split(s, ' ') == [""] + rest;
    var caps := CapAll(rest);
    assert CapSel([""] + rest, atStart) == [""] + caps by {
      assert ([""] + rest)[1..] == rest;
    }
    assert ([""] + caps)[1..] == caps;
  }

  lemma CapJoinLetter(s: string, atStart: bool)
    requires |s| > 0 && s[0] != ' '
    requires Join(CapSel(Split(s[1..], ' '), false), " ") == CapFrom(s[1..], false)
    ensures Join(CapSel(Split(s, ' '), atStart), " ") == CapFrom(s, atStart)
  {
    var rest := Split(s[1..], ' ');
    var w := [s[0]] + rest[0];
    var c := if atStart then UpperChar(s[0]) else s[0];
    var caps := CapAll(rest[1..]);
    assert Split(s, ' ') == [w] + rest[1..];
    assert CapFrom(s, atStart) == [c] + CapFrom(s[1..], false);
    assert CapSel(rest, false) == [rest[0]] + caps;
    CapSelHead(w, rest[1..], atStart);
    assert w[1..] == rest[0];
    JoinConsHead(c, rest[0], caps, " ");
  }

  /** Capitalising a word list whose first word is not empty. */
  lemma CapSelHead(w: string, ws: seq<string>, atStart: bool)
    requires |w| > 0
    ensures CapSel([w] + ws, atStart) == [[if atStart then UpperChar(w[0]) else w[0]] + w[1..]] + CapAll(ws)
  {
    var v := [w] + ws;
    assert v[0] == w && v[1..] == ws;
    if atStart {
      assert CapSel(v, true) == CapAll(v);
      assert CapAll(v) == [CapWord(w)] + CapAll(ws);
    } else {
      assert w == [w[0]] + w[1..];
    }
  }

  lemma {:induction false} CapFromAt(s: string, atStart: bool, i: nat)
    requires i < |s|
    ensures CapFrom(s, atStart)[i]
      == if (i == 0 && atStart) || (i > 0 && s[i - 1] == ' ') then UpperChar(s[i]) else s[i]
  {
    if i > 0 {
      CapFromAt(s[1..], s[0] == ' ', i - 1);
    }
  }

  /**
   * `capitalizeWords` keeps the length and changes exactly the first character of every
   * word (the first character of the string and every character after a space).
   */
  lemma CapitalizeWordsAt(s: string)
    ensures |CapitalizeWords(s)| == |s|
    ensures forall i | 0 <= i < |s| ::
      CapitalizeWords(s)[i] == if i == 0 || s[i - 1] == ' ' then UpperChar(s[i]) else s[i]
  {
    if s != "" {
      CapJoin(s, true);
      assert CapitalizeWords(s) == CapFrom(s, true);
      forall i | 0 <= i < |s|
        ensures CapFrom(s, true)[i] == if i == 0 || s[i - 1] == ' ' then UpperChar(s[i]) else s[i]
      {
        CapFromAt(s, true, i);
      }
    }
  }

  /** A string includes every piece it is built from. */
  lemma ContainsMiddle(a: string, b: string, c: string)
    ensures Contains(a + b + c, b)
  {
    assert OccursAt(a + b + c, b, |a|);
  }

  /** Text added on either side keeps an occurrence. */
  lemma ContainsAppend(x: string, y: string, sub: string)
    requires Contains(x, sub)
    ensures Contains(x + y, sub) && Contains(y + x, sub)
  {
    var i :| 0 <= i <= |x| - |sub| && OccursAt(x, sub, i);
    assert OccursAt(x + y, sub, i);
    assert OccursAt(y + x, sub, |y| + i);
  }

  /** Lower-casing distributes over concatenation. */
  lemma LowerConcat(a: string, b: string)
    ensures Lower(a + b) == Lower(a) + Lower(b)
  {
  }

  /** A phrase built around one inserted value, which it therefore includes. */
  function Around(prefix: string, x: string, suffix: string): (r: string)
    ensures Contains(r, x)
  {
    ContainsMiddle(prefix, x, suffix);
    prefix + x + suffix
  }

  /** A phrase built around two inserted values, which it therefore includes. */
  function Around2(a: string, x: string, b: string, y: string, c: string): (r: string)
    ensures Contains(r, x) && Contains(r, y)
  {
    var r := a + x + b + y + c;
    assert OccursAt(r, x, |a|);
    assert OccursAt(r, y, |a| + |x| + |b|);
    r
  }
}
