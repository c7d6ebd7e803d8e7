/** Select lists: where the splitter's items lie in the text, and what joining items again gives. */
module SqlLists {
  import opened Common
  import opened SqlText
  import opened SqlLexer
  import opened SqlScanners
  import opened SqlSegments

  predicate Trimmed(s: string)
  {
    s != "" ==> !IsUniSpace(s[0]) && !IsUniSpace(s[|s| - 1])
  }

  lemma {:induction false} TrimPadded(lead: string, s: string, trail: string)
    requires Trimmed(s)
    requires forall k :: 0 <= k < |lead| ==> IsUniSpace(lead[k])
    requires forall k :: 0 <= k < |trail| ==> IsUniSpace(trail[k])
    ensures TrimSpace(lead + s + trail) == s
  {
    var t := lead + s + trail;
    var lo, hi := TrimLo(t), TrimHi(t);
    if s == "" {
      assert forall k :: 0 <= k < |t| ==> IsUniSpace(t[k]);
    } else {
      assert t[|lead|] == s[0] && t[|lead| + |s| - 1] == s[|s| - 1];
      assert lo == |lead|;
      assert hi == |lead| + |s|;
      assert t[lo..hi] == s;
    }
  }

  /** A list as the rewrite writes it: items separated by comma and blank, with a blank at the end. */
  function ListText(items: seq<string>): (r: string)
  {
    Join(items, ", ") + " "
  }

  lemma {:induction false} ListTextCons(items: seq<string>)
    requires |items| > 1
    ensures ListText(items) == items[0] + "," + (" " + ListText(items[1..]))
  {
    assert Join(items, ", ") == items[0] + ", " + Join(items[1..], ", ");
    assert items[0] + ", " + Join(items[1..], ", ") + " " == items[0] + "," + (" " + (Join(items[1..], ", ") + " "));
  }

  /** After a good item, a comma or a blank leaves the lexer at its start state. */
  lemma {:induction false} AfterItem(a: string, c: char)
    requires GoodItem(a) && (c == ',' || c == ' ')
    ensures Final(a + [c]) == START
  {
    NonBindModes(a, 0, |a|);
    RunShortPrefix(START, a, [c], |a|);
    var t := a + [c];
    assert Run(false, START, t, 0, |t|) == Step(false, Run(false, START, t, 0, |a|), t[|a|]);
  }

  lemma {:induction false} HitAfterItem(a: string, c: char, b: string, k: nat)
    requires GoodItem(a) && (c == ',' || c == ' ') && k < |a| + 1 + |b|
    requires KeywordHit(a + [c] + b, 0, k, "from")
    ensures k > |a| && KeywordHit(b, 0, k - |a| - 1, "from")
  {
    hide Run, NextMode, Final;
    var ac := a + [c];
    AfterItem(a, c);
    assert !IsLetter(ac[|ac| - 1]);
    HitInJoined(ac, b, k);
    if k <= |a| {
      FromLetter(ac, k);
      HitInJoined(a, [c], k);
    }
  }

  lemma {:induction false} PiecesShift(a: string, b: string, i: nat, j: nat)
    requires Final(a) == START && i <= j <= |b|
    ensures Pieces(a + b, |a| + i, |a| + j) == Pieces(b, i, j)
    decreases |b| - j
  {
    hide Run, CommaAt;
    var c := a + b;
    if j == |b| {
      assert c[|a| + i..] == b[i..];
    } else {
      CommaInJoined(a, b, |a| + j);
      if CommaAt(b, j) {
        assert c[|a| + i..|a| + j] == b[i..j];
        PiecesShift(a, b, j + 1, j + 1);
      } else {
        PiecesShift(a, b, i, j + 1);
      }
    }
  }

  /** Text up to the first top-level comma is the first piece, and the rest splits on its own. */
  lemma {:induction false} PiecesAfterItem(lead: string, a: string, b: string)
    requires GoodItem(a) && (lead == "" || lead == " ")
    ensures Pieces(lead + a + "," + b, 0, 0) == [lead + a] + Pieces(b, 0, 0)
  {
    hide Run, KeywordHit;
    LeadIsGood(lead, a);
    var x := lead + a;
    var t := x + "," + b;
    var xc := x + [','];
    AfterItem(x, ',');
    assert t == xc + b;
    forall k | 0 <= k < |x| ensures !CommaAt(t, k) {
      CommaInJoined(xc, b, k);
      CommaInJoined(x, [','], k);
    }
    NoCommaInside(t, 0, 0, |x|);
    RunShortPrefix(START, xc, b, |x|);
    RunShortPrefix(START, x, [','], |x|);
    RunShortPrefix(START, xc, b, |x| + 1);
    assert CommaAt(t, |x|);
    assert t[0..|x|] == x;
    PiecesShift(xc, b, 0, 0);
  }

  lemma {:induction false} LeadIsGood(lead: string, a: string)
    requires GoodItem(a) && (lead == "" || lead == " ")
    ensures GoodItem(lead + a)
  {
    if lead == "" {
      assert lead + a == a;
    } else {
      SolidPlain(lead);
      RunSecond(lead, a, |a|);
      forall k | 0 <= k < |lead + a| ensures !CommaAt(lead + a, k) && !KeywordHit(lead + a, 0, k, "from") {
        CommaInJoined(lead, a, k);
        if KeywordHit(lead + a, 0, k, "from") {
          HitInJoined(lead, a, k);
        }
      }
    }
  }

  /** Splitting a rebuilt list gives back the items it was built from. */
  lemma {:induction false} SplitListText(lead: string, items: seq<string>)
    requires |items| > 0 && (lead == "" || lead == " ")
    requires forall i :: 0 <= i < |items| ==> GoodItem(items[i]) && Trimmed(items[i])
    ensures TrimAll(Pieces(lead + ListText(items), 0, 0)) == items
    decreases |items|
  {
    if |items| == 1 {
      SplitOne(lead, items[0]);
      assert items == [items[0]] && Join(items, ", ") == items[0];
    } else {
      SplitListText(" ", items[1..]);
      SplitCons(lead, items[0], items[1..]);
      assert items == [items[0]] + items[1..];
    }
  }

  lemma {:induction false} SplitOne(lead: string, a: string)
    requires GoodItem(a) && Trimmed(a) && (lead == "" || lead == " ")
    ensures TrimAll(Pieces(lead + (a + " "), 0, 0)) == [a]
  {
    hide GoodItem;
    OnlyPiece(lead, a);
    TrimPadded(lead, a, " ");
    assert lead + (a + " ") == lead + a + " ";
  }

  lemma {:induction false} SplitCons(lead: string, a: string, items: seq<string>)
    requires GoodItem(a) && Trimmed(a) && (lead == "" || lead == " ") && |items| > 0
    ensures TrimAll(Pieces(lead + ListText([a] + items), 0, 0)) == [a] + TrimAll(Pieces(" " + ListText(items), 0, 0))
  {
    hide GoodItem, ListText, Pieces;
    var all := [a] + items;
    assert all[1..] == items;
    ListTextCons(all);
    var rest := " " + ListText(items);
    assert lead + ListText(all) == lead + a + "," + rest;
    PiecesAfterItem(lead, a, rest);
    TrimPadded(lead, a, "");
    assert lead + a + "" == lead + a;
    assert TrimAll([lead + a] + Pieces(rest, 0, 0)) == [a] + TrimAll(Pieces(rest, 0, 0));
  }

  lemma {:induction false} OnlyPiece(lead: string, a: string)
    requires GoodItem(a) && (lead == "" || lead == " ")
    ensures Pieces(lead + a + " ", 0, 0) == [lead + a + " "]
  {
    LeadIsGood(lead, a);
    var x := lead + a;
    var t := x + " ";
    forall k | 0 <= k < |t| ensures !CommaAt(t, k) {
      if k < |x| {
        CommaInJoined(x, " ", k);
      }
    }
    NoCommaInside(t, 0, 0, |t|);
    assert t[0..] == t;
  }

  /** A rebuilt list leaves the lexer in code at depth zero and holds no FROM of its own. */
  lemma {:induction false} ListTextNeutral(items: seq<string>)
    requires |items| > 0
    requires forall i :: 0 <= i < |items| ==> GoodItem(items[i])
    ensures Final(ListText(items)) == START && NoTopFrom(ListText(items))
    decreases |items|
  {
    hide Run, GoodItem, KeywordHit;
    var a := items[0];
    var t := ListText(items);
    if |items| == 1 {
      assert t == a + [' '] + "";
      AfterItem(a, ' ');
      forall k | 0 <= k < |t| ensures !KeywordHit(t, 0, k, "from") {
        if KeywordHit(t, 0, k, "from") {
          HitAfterItem(a, ' ', "", k);
        }
      }
    } else {
      ListTextCons(items);
      var inner := ListText(items[1..]);
      var rest := " " + inner;
      ListTextNeutral(items[1..]);
      SolidPlain(" ");
      RunSecond(" ", inner, |inner|);
      AfterItem(a, ',');
      assert t == (a + [',']) + rest;
      RunSecond(a + [','], rest, |rest|);
      forall k | 0 <= k < |t| ensures !KeywordHit(t, 0, k, "from") {
        if KeywordHit(t, 0, k, "from") {
          HitAfterItem(a, ',', rest, k);
          HitInJoined(" ", inner, k - |a| - 1);
        }
      }
    }
  }

  /** Where piece n of a list lies, and in which state lexing reaches it. */
  lemma {:induction false} PieceLocation(s: string, from: nat, i: nat, n: nat) returns (o: nat, e: nat)
    requires from <= i <= |s| && n < |Pieces(s, from, i)|
    requires Run(false, START, s, 0, from) == START
    requires forall k :: from <= k < i ==> !CommaAt(s, k)
    requires from > 0 ==> s[from - 1] == ','
    ensures from <= o <= e <= |s| && Pieces(s, from, i)[n] == s[o..e]
    ensures n == 0 ==> o == from
    ensures Run(false, START, s, 0, o) == START
    ensures o > 0 ==> s[o - 1] == ','
    ensures forall k :: o <= k < e ==> !CommaAt(s, k)
    ensures e < |s| ==> s[e] == ',' && InCode(Run(false, START, s, 0, e).mode) && DepthAt(false, s, 0, e) == 0
    decreases |s| - i
  {
    if i == |s| {
      o, e := from, |s|;
    } else if CommaAt(s, i) {
      if n == 0 {
        o, e := from, i;
      } else {
        NonBindModes(s, 0, i);
        o, e := PieceLocation(s, i + 1, i + 1, n - 1);
      }
    } else {
      o, e := PieceLocation(s, from, i + 1, n);
    }
  }

  /** Trailing blanks bring no quote or block comment to an end. */
  lemma {:induction false} RunBlanks(s: string, i: nat, j: nat)
    requires i <= j <= |s|
    requires forall k :: i <= k < j ==> IsUniSpace(s[k])
    ensures DepthAt(false, s, 0, j) == DepthAt(false, s, 0, i)
    ensures InCode(Run(false, START, s, 0, j).mode) || Run(false, START, s, 0, j).mode.Line? ==>
              InCode(Run(false, START, s, 0, i).mode) || Run(false, START, s, 0, i).mode.Line?
    decreases j
  {
    if i < j {
      RunBlanks(s, i, j - 1);
      NonBindModes(s, 0, j - 1);
    }
  }

  /** What is known of every item cut from a list that ends in code and holds no top-level FROM. */
  lemma {:induction false} ItemFacts(list: string, n: nat)
    requires InCode(Final(list).mode) && Final(list).depth == 0 && NoTopFrom(list)
    requires n < |Pieces(list, 0, 0)|
    ensures var item := TrimAll(Pieces(list, 0, 0))[n];
            && Trimmed(item) && NoTopComma(item) && NoTopFrom(item) && Final(item).depth == 0
            && (InCode(Final(item).mode) || Final(item).mode.Line?)
  {
    assert Run(false, START, list, 0, 0) == START;
    hide Run, KeywordAt, TrimSpace, Pieces, NoTopComma, NoTopFrom, IsUniSpace;
    var o, e := PieceLocation(list, 0, 0, n);
    PieceFacts(list, o, e);
  }

  lemma {:induction false} PieceFacts(list: string, o: nat, e: nat)
    requires o <= e <= |list| && Run(false, START, list, 0, o) == START && NoTopFrom(list)
    requires o > 0 ==> list[o - 1] == ','
    requires e < |list| ==> list[e] == ','
    requires forall k :: o <= k < e ==> !CommaAt(list, k)
    requires InCode(Run(false, START, list, 0, e).mode) && DepthAt(false, list, 0, e) == 0
    ensures var item := TrimSpace(list[o..e]);
            && Trimmed(item) && NoTopComma(item) && NoTopFrom(item) && Final(item).depth == 0
            && (InCode(Final(item).mode) || Final(item).mode.Line?)
  {
    hide Run, KeywordAt, NoTopComma, NoTopFrom, IsUniSpace, CommaAt;
    var a, z := TrimLocation(list, o, e);
    RunPlain(START, list, o, a);
    RunCompose(false, START, list, 0, o, a);
    StretchFacts(list, a, z);
    RunBlanks(list, z, e);
    ItemInList(list, a, z, z - a);
  }

  lemma {:induction false} TrimLocation(list: string, o: nat, e: nat) returns (a: nat, z: nat)
    requires o <= e <= |list|
    ensures o <= a <= z <= e && TrimSpace(list[o..e]) == list[a..z]
    ensures o < e && !IsUniSpace(list[o]) ==> a == o
    ensures forall k :: o <= k < a || z <= k < e ==> IsUniSpace(list[k]) && !IsIdentPart(list[k]) && IsPlain(list[k]) && list[k] != '*'
  {
    var piece := list[o..e];
    a, z := o + TrimLo(piece), o + TrimHi(piece);
    assert forall k :: 0 <= k < |piece| ==> piece[k] == list[o + k];
    forall k | o <= k < a || z <= k < e ensures IsUniSpace(list[k]) {
      assert piece[k - o] == list[k];
    }
  }

  /** A stretch that begins in code and touches no word on either side shows no comma or FROM that the list does not. */
  lemma {:induction false} StretchFacts(list: string, a: nat, z: nat)
    requires a <= z <= |list| && Run(false, START, list, 0, a) == START && NoTopFrom(list)
    requires a > 0 ==> !IsIdentPart(list[a - 1])
    requires z < |list| ==> !IsIdentPart(list[z])
    requires forall k :: a <= k < z ==> !CommaAt(list, k)
    ensures NoTopComma(list[a..z]) && NoTopFrom(list[a..z])
  {
    var item := list[a..z];
    forall k | 0 <= k < |item| ensures !CommaAt(item, k) && !KeywordHit(item, 0, k, "from") {
      ItemInList(list, a, z, k);
      ItemInList(list, a, z, k + 1);
      assert !CommaAt(list, a + k);
      assert !KeywordHit(list, 0, a + k, "from");
      if KeywordAt(item, k, "from") {
        WordInList(list, a, z, k);
      }
    }
  }

  lemma {:induction false} WordInList(list: string, a: nat, z: nat, k: nat)
    requires a <= z <= |list| && KeywordAt(list[a..z], k, "from")
    requires a > 0 ==> !IsIdentPart(list[a - 1])
    requires z < |list| ==> !IsIdentPart(list[z])
    ensures KeywordAt(list, a + k, "from")
  {
    var item := list[a..z];
    FromLetter(item, k);
    assert item[k..k + 4] == list[a + k..a + k + 4];
    if k > 0 { assert item[k - 1] == list[a + k - 1]; }
    if k + 4 < |item| { assert item[k + 4] == list[a + k + 4]; }
  }

  lemma {:induction false} ItemInList(list: string, a: nat, z: nat, k: nat)
    requires a <= z <= |list| && k <= z - a && Run(false, START, list, 0, a) == START
    ensures Run(false, START, list[a..z], 0, k) == Run(false, START, list, 0, a + k)
  {
    hide Run;
    var item := list[a..z];
    RunCompose(false, START, list, 0, a, a + k);
    assert list[a..a + k] == item[0..0 + k];
    RunShift(false, START, list, a, item, 0, k);
  }
}
