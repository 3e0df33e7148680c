/**
 * Smart matching of lost and found reports: a score out of 100 built from five
 * capped sub-scores (category 30, colour 25, location 20, time 15, description
 * keywords 10), the per-item and system-wide match lists, the dashboard
 * recommendations and the confidence label of a score.
 *
 * The `getItems` queries the service issues are a parameter `query`, mapping a
 * `(type, status)` filter to the outcome of that query.
 */
module Matching {
  import opened Wrappers
  import opened Text
  import opened Seqs
  import opened ItemsService

  /** `Object.values(COLOR_GROUPS)`: 'navy' is both dark and blue, 'coral' both pink and orange. */
  function ColorGroups(): seq<seq<string>>
  {
    [
    ["black", "dark blue", "dark brown", "navy", "dark gray", "dark grey"],
    ["white", "cream", "beige", "light gray", "light grey", "ivory", "off-white"],
    ["blue", "navy", "cyan", "light blue", "sky blue"],
    ["red", "maroon", "burgundy", "crimson", "scarlet"],
    ["green", "lime", "olive", "forest green"],
    ["yellow", "gold", "mustard"],
    ["purple", "violet", "lavender", "magenta"],
    ["brown", "tan", "chocolate", "coffee"],
    ["pink", "rose", "coral"],
    ["orange", "peach", "coral"]
    ]
  }

  /** Words ignored when comparing descriptions. */
  predicate IsStopWord(w: string)
  {
    w in {
    "the", "a", "an", "and", "or", "but", "in", "on", "at", "to", "for",
    "of", "with", "by", "from", "is", "was", "are", "were", "be", "been",
    "have", "has", "had", "do", "does", "did", "will", "would", "could",
    "should", "may", "might", "must", "can", "i", "you", "he", "she", "it",
    "we", "they", "this", "that", "these", "those", "my", "your", "his", "her"
    }
  }

  /** The alternatives of `/(library|academic|hostel|cafeteria|sports|lab|block [a-d])/i`. */
  function BuildingNames(): seq<string>
  {
    ["library", "academic", "hostel", "cafeteria", "sports", "lab",
     "block a", "block b", "block c", "block d"]
  }

  /** The common-area words a location may share. */
  function CommonAreas(): seq<string>
  {
    ["library", "academic", "hostel", "cafeteria", "sports"]
  }

  /** Milliseconds in a day. */
  const Day: int := 86400000

  // ---------------------------------------------------------------- category

  /** 30 for the same category ignoring case, 15 when one contains the other, else 0. */
  function CategoryScore(c1: string, c2: string): (r: int)
    ensures r == 0 || r == 15 || r == 30
  {
    if c1 == "" || c2 == "" then 0
    else if ToLower(c1) == ToLower(c2) then 30
    else if Contains(ToLower(c1), ToLower(c2)) || Contains(ToLower(c2), ToLower(c1)) then 15
    else 0
  }

  /** The category sub-score in full: both directions of each case. */
  lemma CategoryScoreCases(c1: string, c2: string)
    ensures CategoryScore(c1, c2) == 30 <==> c1 != "" && c2 != "" && ToLower(c1) == ToLower(c2)
    ensures CategoryScore(c1, c2) == 15 <==>
      (c1 != "" && c2 != "" && ToLower(c1) != ToLower(c2)
       && (Contains(ToLower(c1), ToLower(c2)) || Contains(ToLower(c2), ToLower(c1))))
  {
  }

  /** The category sub-score does not depend on the order of its arguments. */
  lemma CategorySymmetric(c1: string, c2: string)
    ensures CategoryScore(c1, c2) == CategoryScore(c2, c1)
  {
  }

  // ---------------------------------------------------------------- colour

  /** Both colours lie in one group of `ColorGroups()`. */
  predicate InOneGroup(c1: string, c2: string)
  {
    exists g :: 0 <= g < |ColorGroups()| && c1 in ColorGroups()[g] && c2 in ColorGroups()[g]
  }

  /** `areSimilarColors`: equal once lower-cased and trimmed, or in one colour group. */
  predicate AreSimilarColors(color1: string, color2: string)
    ensures AreSimilarColors(color1, color2) ==> color1 != "" && color2 != ""
    ensures color1 != "" && color2 != "" && Trim(ToLower(color1)) == Trim(ToLower(color2)) ==> AreSimilarColors(color1, color2)
  {
    color1 != "" && color2 != "" &&
    var c1 := Trim(ToLower(color1));
    var c2 := Trim(ToLower(color2));
    c1 == c2 || InOneGroup(c1, c2)
  }

  /** 25 for the same colour ignoring case, 15 for similar colours, else 0. */
  function ColorScore(color1: string, color2: string): (r: int)
    ensures r == 0 || r == 15 || r == 25
  {
    if color1 == "" || color2 == "" then 0
    else if ToLower(color1) == ToLower(color2) then 25
    else if AreSimilarColors(color1, color2) then 15
    else 0
  }

  /** The colour sub-score in full: both directions of each case. */
  lemma ColorScoreCases(color1: string, color2: string)
    ensures ColorScore(color1, color2) == 25 <==> color1 != "" && color2 != "" && ToLower(color1) == ToLower(color2)
    ensures ColorScore(color1, color2) == 15 <==> ToLower(color1) != ToLower(color2) && AreSimilarColors(color1, color2)
  {
  }

  /** Colour similarity, and so the colour sub-score, is symmetric. */
  lemma ColorSymmetric(color1: string, color2: string)
    ensures AreSimilarColors(color1, color2) == AreSimilarColors(color2, color1)
    ensures ColorScore(color1, color2) == ColorScore(color2, color1)
  {
    if color1 != "" && color2 != "" {
      var c1, c2 := Trim(ToLower(color1)), Trim(ToLower(color2));
      if InOneGroup(c1, c2) {
        var g :| 0 <= g < |ColorGroups()| && c1 in ColorGroups()[g] && c2 in ColorGroups()[g];
        assert InOneGroup(c2, c1);
      }
      if InOneGroup(c2, c1) {
        var g :| 0 <= g < |ColorGroups()| && c2 in ColorGroups()[g] && c1 in ColorGroups()[g];
        assert InOneGroup(c1, c2);
      }
    }
  }

  /** Colour similarity is not transitive: navy is like black and like cyan, which are unlike. */
  lemma SimilarityNotTransitive()
    ensures AreSimilarColors("navy", "black") && AreSimilarColors("navy", "cyan")
    ensures !AreSimilarColors("black", "cyan")
  {
    NavyLikeBlack();
    NavyLikeCyan();
    BlackUnlikeCyan();
  }

  lemma NavyLikeBlack()
    ensures AreSimilarColors("navy", "black")
  {
    PlainWord("navy");
    PlainWord("black");
    NavyIsDarkAndBlue();
  }

  lemma NavyLikeCyan()
    ensures AreSimilarColors("navy", "cyan")
  {
    PlainWord("navy");
    PlainWord("cyan");
    NavyIsDarkAndBlue();
  }

  lemma BlackUnlikeCyan()
    ensures !AreSimilarColors("black", "cyan")
  {
    PlainWord("black");
    PlainWord("cyan");
    BlackAndCyanApart();
  }

  /** Navy is in the dark group with black and in the blue group with cyan. */
  lemma NavyIsDarkAndBlue()
    ensures InOneGroup("navy", "black") && InOneGroup("navy", "cyan")
  {
    assert ColorGroups()[0][3] == "navy" && ColorGroups()[0][0] == "black";
    assert ColorGroups()[2][1] == "navy" && ColorGroups()[2][2] == "cyan";
  }

  /** Black is only in the dark group, which has no cyan. */
  lemma BlackAndCyanApart()
    ensures !InOneGroup("black", "cyan")
  {
    var groups := ColorGroups();
    forall g | 0 <= g < |groups| && "black" in groups[g]
      ensures g == 0
    {
      var i :| 0 <= i < |groups[g]| && groups[g][i] == "black";
    }
    assert "cyan" !in groups[0] by {
      forall i | 0 <= i < |groups[0]|
        ensures groups[0][i] != "cyan"
      {
      }
    }
  }

  /** A lower-case word without surrounding white space is its own normal form. */
  lemma PlainWord(s: string)
    requires s != [] && forall i :: 0 <= i < |s| ==> 'a' <= s[i] <= 'z'
    ensures Trim(ToLower(s)) == s
  {
    forall i | 0 <= i < |s|
      ensures LowerChar(s[i]) == s[i]
    {
    }
    assert ToLower(s) == s;
    assert !IsSpace(s[0]) && !IsSpace(s[|s| - 1]);
    assert TrimStart(s) == s;
    assert TrimEnd(s) == s;
  }

  // ---------------------------------------------------------------- location

  /** The building alternative that matches at the start of `s`, if any. */
  function BuildingPrefix(s: string): (r: Option<string>)
    ensures r.Some? ==> r.value in BuildingNames() && r.value <= s
    ensures r.None? ==> forall i :: 0 <= i < |BuildingNames()| ==> !(BuildingNames()[i] <= s)
  {
    if "library" <= s then Some("library")
    else if "academic" <= s then Some("academic")
    else if "hostel" <= s then Some("hostel")
    else if "cafeteria" <= s then Some("cafeteria")
    else if "sports" <= s then Some("sports")
    else if "lab" <= s then Some("lab")
    else if "block a" <= s then Some("block a")
    else if "block b" <= s then Some("block b")
    else if "block c" <= s then Some("block c")
    else if "block d" <= s then Some("block d")
    else None
  }

  /**
   * The leftmost match of the building pattern in a lower-cased location:
   * the alternative found at the first position where one starts, or none
   * when no alternative occurs anywhere.
   */
  function ExtractBuilding(s: string): (r: Option<string>)
    ensures r.Some? ==> r.value in BuildingNames() && Contains(s, r.value)
    ensures r.Some? ==> exists j :: 0 <= j < |s| && BuildingPrefix(s[j..]) == r && forall j' :: 0 <= j' < j ==> BuildingPrefix(s[j'..]).None?
    ensures r.None? ==> forall j, k :: 0 <= j < |s| && 0 <= k < |BuildingNames()| ==> !(BuildingNames()[k] <= s[j..])
    decreases |s|
  {
    if s == [] then None
    else if BuildingPrefix(s).Some? then
      assert s[0..] == s;
      BuildingPrefix(s)
    else
      var r := ExtractBuilding(s[1..]);
      if r.Some? then
        ExtractStepFound(s, r);
        r
      else
        ExtractStepNone(s);
        r
  }

  /** No alternative matches at the start of `s`, so the leftmost match in `s[1..]` is the leftmost in `s`. */
  lemma ExtractStepFound(s: string, r: Option<string>)
    requires s != [] && BuildingPrefix(s).None? && r.Some?
    requires r.value in BuildingNames() && Contains(s[1..], r.value)
    requires exists j :: 0 <= j < |s[1..]| && BuildingPrefix(s[1..][j..]) == r && forall j' :: 0 <= j' < j ==> BuildingPrefix(s[1..][j'..]).None?
    ensures r.value in BuildingNames() && Contains(s, r.value)
    ensures exists j :: 0 <= j < |s| && BuildingPrefix(s[j..]) == r && forall j' :: 0 <= j' < j ==> BuildingPrefix(s[j'..]).None?
  {
    var j :| 0 <= j < |s[1..]| && BuildingPrefix(s[1..][j..]) == r && forall j' :: 0 <= j' < j ==> BuildingPrefix(s[1..][j'..]).None?;
    assert s[j + 1..] == s[1..][j..];
    forall j' | 0 <= j' < j + 1
      ensures BuildingPrefix(s[j'..]).None?
    {
      if j' == 0 {
        assert s[0..] == s;
      } else {
        assert s[j'..] == s[1..][j' - 1..];
      }
    }
  }

  /** No alternative matches at the start of `s` nor anywhere in `s[1..]`, so none matches in `s`. */
  lemma ExtractStepNone(s: string)
    requires s != [] && BuildingPrefix(s).None?
    requires forall j, k :: 0 <= j < |s[1..]| && 0 <= k < |BuildingNames()| ==> !(BuildingNames()[k] <= s[1..][j..])
    ensures forall j, k :: 0 <= j < |s| && 0 <= k < |BuildingNames()| ==> !(BuildingNames()[k] <= s[j..])
  {
    forall j, k | 0 <= j < |s| && 0 <= k < |BuildingNames()|
      ensures !(BuildingNames()[k] <= s[j..])
    {
      if j == 0 {
        assert s[0..] == s;
      } else {
        assert s[j..] == s[1..][j - 1..];
      }
    }
  }

  /** Both locations mention one of the common-area words. */
  predicate ShareCommonArea(l1: string, l2: string)
  {
    exists i :: 0 <= i < |CommonAreas()| && Contains(l1, CommonAreas()[i]) && Contains(l2, CommonAreas()[i])
  }

  /** `calculateLocationScore` */
  function LocationScore(loc1: string, loc2: string): (r: int)
    ensures r == 0 || r == 10 || r == 15 || r == 20
  {
    if loc1 == "" || loc2 == "" then 0
    else
      var l1 := ToLower(loc1);
      var l2 := ToLower(loc2);
      if l1 == l2 then 20
      else if ExtractBuilding(l1).Some? && ExtractBuilding(l1) == ExtractBuilding(l2) then 15
      else if ShareCommonArea(l1, l2) then 10
      else 0
  }

  /** The location sub-score in full: both directions of each case. */
  lemma LocationScoreCases(loc1: string, loc2: string)
    ensures LocationScore(loc1, loc2) == 20 <==> loc1 != "" && loc2 != "" && ToLower(loc1) == ToLower(loc2)
    ensures LocationScore(loc1, loc2) == 15 <==>
      (loc1 != "" && loc2 != "" && ToLower(loc1) != ToLower(loc2)
       && ExtractBuilding(ToLower(loc1)).Some? && ExtractBuilding(ToLower(loc1)) == ExtractBuilding(ToLower(loc2)))
    ensures LocationScore(loc1, loc2) == 10 <==>
      (loc1 != "" && loc2 != "" && ToLower(loc1) != ToLower(loc2)
       && !(ExtractBuilding(ToLower(loc1)).Some? && ExtractBuilding(ToLower(loc1)) == ExtractBuilding(ToLower(loc2)))
       && ShareCommonArea(ToLower(loc1), ToLower(loc2)))
  {
  }

  /** The location sub-score does not depend on the order of its arguments. */
  lemma LocationSymmetric(loc1: string, loc2: string)
    ensures LocationScore(loc1, loc2) == LocationScore(loc2, loc1)
  {
    if loc1 != "" && loc2 != "" {
      var l1, l2 := ToLower(loc1), ToLower(loc2);
      assert ShareCommonArea(l1, l2) <==> ShareCommonArea(l2, l1);
    }
  }

  // ---------------------------------------------------------------- time

  function Abs(x: int): int
  {
    if x < 0 then -x else x
  }

  /** `calculateTimeScore`: a step function of the gap between the two timestamps. */
  function TimeScore(d1: Option<int>, d2: Option<int>): (r: int)
    ensures r == 0 || r == 4 || r == 8 || r == 12 || r == 15
    ensures d1.None? || d2.None? ==> r == 0
    ensures d1.Some? && d2.Some? ==> r == GapScore(Abs(d1.value - d2.value))
  {
    if d1.None? || d2.None? then 0
    else GapScore(Abs(d1.value - d2.value))
  }

  /** The score of a gap of `gap` milliseconds: within 1, 3, 7 or 14 days. */
  function GapScore(gap: int): (r: int)
    ensures r == 0 || r == 4 || r == 8 || r == 12 || r == 15
    ensures r == 15 <==> gap <= Day
    ensures r == 12 <==> Day < gap <= 3 * Day
    ensures r == 8 <==> 3 * Day < gap <= 7 * Day
    ensures r == 4 <==> 7 * Day < gap <= 14 * Day
    ensures r == 0 <==> gap > 14 * Day
  {
    if gap <= Day then 15
    else if gap <= 3 * Day then 12
    else if gap <= 7 * Day then 8
    else if gap <= 14 * Day then 4
    else 0
  }

  /** A longer gap never scores more. */
  lemma GapScoreMonotone(g1: int, g2: int)
    requires g1 <= g2
    ensures GapScore(g2) <= GapScore(g1)
  {
  }

  // ---------------------------------------------------------------- keywords

  /** `.replace(/[^\w\s]/g, ' ')`: every character that is neither a word character nor white space becomes a space. */
  function Depunctuate(s: string): (r: string)
    ensures |r| == |s|
    ensures forall i :: 0 <= i < |s| ==> r[i] == if IsWordChar(s[i]) || IsSpace(s[i]) then s[i] else ' '
  {
    seq(|s|, i requires 0 <= i < |s| => if IsWordChar(s[i]) || IsSpace(s[i]) then s[i] else ' ')
  }

  /** The length of the run of non-space characters that `s` starts with. */
  function RunLength(s: string): (n: nat)
    ensures n <= |s|
    ensures forall i :: 0 <= i < n ==> !IsSpace(s[i])
    ensures n < |s| ==> IsSpace(s[n])
    ensures s != [] && !IsSpace(s[0]) ==> n >= 1
  {
    if s == [] || IsSpace(s[0]) then 0 else 1 + RunLength(s[1..])
  }

  /** `.split(/\s+/)` without the empty strings it yields at the ends: the maximal runs of non-space characters. */
  function Words(s: string): (r: seq<string>)
    ensures forall i :: 0 <= i < |r| ==> r[i] != [] && forall j :: 0 <= j < |r[i]| ==> !IsSpace(r[i][j])
    decreases |s|
  {
    if s == [] then []
    else if IsSpace(s[0]) then Words(s[1..])
    else
      var n := RunLength(s);
      var rest := Words(s[n..]);
      [s[..n]] + rest
  }

  /** `extractKeywords`: the distinct lower-cased words longer than two characters that are not stop words. */
  function Keywords(text: string): (k: set<string>)
    ensures text == "" ==> k == {}
  {
    if text == "" then {}
    else
      var ws := Words(Depunctuate(ToLower(text)));
      set i | 0 <= i < |ws| && |ws[i]| > 2 && !IsStopWord(ws[i]) :: ws[i]
  }

  /** Keywords are lower-case runs of word characters, longer than two, never stop words. */
  lemma KeywordShape(text: string, w: string)
    requires w in Keywords(text)
    ensures |w| > 2 && !IsStopWord(w)
    ensures forall j :: 0 <= j < |w| ==> IsWordChar(w[j]) && !IsUpper(w[j])
  {
    var s := Depunctuate(ToLower(text));
    var ws := Words(s);
    var i :| 0 <= i < |ws| && ws[i] == w;
    WordsAreRuns(s, w);
    var p :| WordStart(s, p) && w == WordAt(s, p);
    forall j | 0 <= j < |w|
      ensures IsWordChar(w[j]) && !IsUpper(w[j])
    {
      assert w[j] == s[p + j];
      assert !IsSpace(w[j]);
    }
  }

  /** A word of `s` starts at `i`: a non-space character at the start or after a space. */
  predicate WordStart(s: string, i: int)
  {
    0 <= i < |s| && !IsSpace(s[i]) && (i == 0 || IsSpace(s[i - 1]))
  }

  /** The run of non-space characters starting at `i`. */
  function WordAt(s: string, i: int): string
    requires 0 <= i <= |s|
  {
    s[i..i + RunLength(s[i..])]
  }

  /** Past a space, word starts and words of a suffix are those of the whole string, shifted. */
  lemma StartShift(s: string, d: int, j: int)
    requires 1 <= d <= |s| && IsSpace(s[d - 1]) && 0 <= j < |s| - d
    ensures WordStart(s[d..], j) <==> WordStart(s, j + d)
    ensures WordAt(s[d..], j) == WordAt(s, j + d)
  {
    assert s[d..][j..] == s[j + d..];
  }

  /** Where the words after the leading one (or after a leading space) begin. */
  function NextWordFrom(s: string): (d: nat)
    requires s != []
    ensures 1 <= d <= |s| + 1
  {
    if IsSpace(s[0]) then 1 else RunLength(s) + 1
  }

  /** `Words` splits off the leading word, if any, and continues past the space that ends it. */
  lemma WordsSplit(s: string)
    requires s != [] && NextWordFrom(s) <= |s|
    ensures IsSpace(s[NextWordFrom(s) - 1])
    ensures Words(s) == (if IsSpace(s[0]) then [] else [s[..NextWordFrom(s) - 1]]) + Words(s[NextWordFrom(s)..])
  {
    var d := NextWordFrom(s);
    if !IsSpace(s[0]) {
      assert s[d - 1..][1..] == s[d..];
    }
  }

  /** A word starts at the very beginning or past the space that ends the leading word. */
  lemma StartsPastLeading(s: string, i: int)
    requires s != [] && WordStart(s, i)
    ensures i == 0 || i >= NextWordFrom(s)
    ensures i == 0 ==> !IsSpace(s[0]) && WordAt(s, 0) == s[..NextWordFrom(s) - 1]
  {
    assert s[0..] == s;
  }

  /** The tokens of `split(/\s+/)` are exactly the maximal runs of non-space characters. */
  lemma {:induction false} WordsAreRuns(s: string, w: string)
    ensures w in Words(s) <==> exists i :: WordStart(s, i) && w == WordAt(s, i)
    decreases |s|
  {
    if s == [] {
    } else if NextWordFrom(s) > |s| {
      assert s[..|s|] == s && s[|s|..] == [];
      assert Words(s) == [s];
      if exists i :: WordStart(s, i) && w == WordAt(s, i) {
        var i :| WordStart(s, i) && w == WordAt(s, i);
        StartsPastLeading(s, i);
      }
      assert s[0..] == s;
      assert WordStart(s, 0) && WordAt(s, 0) == s;
    } else {
      var d := NextWordFrom(s);
      WordsSplit(s);
      WordsAreRuns(s[d..], w);
      if w in Words(s) {
        WordsStepIn(s, w);
      }
      if exists i :: WordStart(s, i) && w == WordAt(s, i) {
        var i :| WordStart(s, i) && w == WordAt(s, i);
        WordsStepOut(s, w, i);
      }
    }
  }

  /** `StartShift` read from the other side: a word of `s` past position `d` is a word of `s[d..]`. */
  lemma StartUnshift(s: string, d: int, i: int)
    requires 1 <= d <= i < |s| && IsSpace(s[d - 1])
    ensures WordStart(s[d..], i - d) <==> WordStart(s, i)
    ensures WordAt(s[d..], i - d) == WordAt(s, i)
  {
    assert s[d..][i - d..] == s[i..];
  }

  /** A word of `s` is either its leading word or a word past it, shifted. */
  lemma WordsStepIn(s: string, w: string)
    requires s != [] && NextWordFrom(s) <= |s|
    requires IsSpace(s[NextWordFrom(s) - 1])
    requires Words(s) == (if IsSpace(s[0]) then [] else [s[..NextWordFrom(s) - 1]]) + Words(s[NextWordFrom(s)..])
    requires w in Words(s[NextWordFrom(s)..]) ==> exists j :: WordStart(s[NextWordFrom(s)..], j) && w == WordAt(s[NextWordFrom(s)..], j)
    requires w in Words(s)
    ensures exists i :: WordStart(s, i) && w == WordAt(s, i)
  {
    var d := NextWordFrom(s);
    var t := s[d..];
    if w in Words(t) {
      var j :| WordStart(t, j) && w == WordAt(t, j);
      StartShift(s, d, j);
      assert WordStart(s, j + d) && w == WordAt(s, j + d);
    } else {
      assert !IsSpace(s[0]) && w == s[..d - 1];
      StartsLeading(s);
      assert WordStart(s, 0) && w == WordAt(s, 0);
    }
  }

  /** A run of non-space characters in `s` is among its words. */
  lemma WordsStepOut(s: string, w: string, i: int)
    requires s != [] && NextWordFrom(s) <= |s|
    requires IsSpace(s[NextWordFrom(s) - 1])
    requires Words(s) == (if IsSpace(s[0]) then [] else [s[..NextWordFrom(s) - 1]]) + Words(s[NextWordFrom(s)..])
    requires (exists j :: WordStart(s[NextWordFrom(s)..], j) && w == WordAt(s[NextWordFrom(s)..], j)) ==> w in Words(s[NextWordFrom(s)..])
    requires WordStart(s, i) && w == WordAt(s, i)
    ensures w in Words(s)
  {
    var d := NextWordFrom(s);
    var t := s[d..];
    StartsPastLeading(s, i);
    if i >= d {
      StartUnshift(s, d, i);
      assert WordStart(t, i - d) && w == WordAt(t, i - d);
    } else {
      assert Words(s)[0] == w;
    }
  }

  /** A string that starts with a non-space character starts with a word. */
  lemma StartsLeading(s: string)
    requires s != [] && !IsSpace(s[0])
    ensures WordStart(s, 0) && WordAt(s, 0) == s[..NextWordFrom(s) - 1]
  {
    assert s[0..] == s;
  }

  /** Every word of a description longer than two characters that is not a stop word is a keyword. */
  lemma KeywordsComplete(text: string, i: int)
    requires text != ""
    requires WordStart(Depunctuate(ToLower(text)), i)
    requires |WordAt(Depunctuate(ToLower(text)), i)| > 2 && !IsStopWord(WordAt(Depunctuate(ToLower(text)), i))
    ensures WordAt(Depunctuate(ToLower(text)), i) in Keywords(text)
  {
    var s := Depunctuate(ToLower(text));
    var ws := Words(s);
    WordsAreRuns(s, WordAt(s, i));
    var k :| 0 <= k < |ws| && ws[k] == WordAt(s, i);
  }

  /**
   * `calculateKeywordScore`: 10 times the share of common keywords in the
   * smaller keyword set; 0 when either set is empty or they share nothing.
   */
  function KeywordScore(desc1: string, desc2: string): (r: real)
    ensures 0.0 <= r <= 10.0
  {
    KeywordRatio(Keywords(desc1), Keywords(desc2))
  }

  /** The keyword sub-score of two keyword sets. */
  function KeywordRatio(k1: set<string>, k2: set<string>): (r: real)
    ensures 0.0 <= r <= 10.0
  {
    if |k1| == 0 || |k2| == 0 then 0.0
    else
      var common := k1 * k2;
      if |common| == 0 then 0.0
      else
        CommonBound(k1, k2);
        var ratio := 10.0 * (|common| as real) / (Min(|k1|, |k2|) as real);
        if ratio < 10.0 then ratio else 10.0
  }

  /**
   * The keyword sub-score in full: 0 without common keywords, otherwise the
   * share of common keywords in the smaller set, times ten, with no need of
   * the cap.
   */
  lemma KeywordScoreCases(desc1: string, desc2: string)
    ensures var k1, k2 := Keywords(desc1), Keywords(desc2);
      (k1 * k2 == {} ==> KeywordScore(desc1, desc2) == 0.0) &&
      (k1 * k2 != {} ==> KeywordScore(desc1, desc2) == 10.0 * (|k1 * k2| as real) / (Min(|k1|, |k2|) as real))
  {
    var k1, k2 := Keywords(desc1), Keywords(desc2);
    if k1 * k2 != {} {
      CommonBound(k1, k2);
      assert k1 != {} && k2 != {};
      RatioAtMostTen(|k1 * k2|, Min(|k1|, |k2|));
    }
  }

  /** The keyword sub-score does not depend on the order of its arguments. */
  lemma KeywordSymmetric(desc1: string, desc2: string)
    ensures KeywordScore(desc1, desc2) == KeywordScore(desc2, desc1)
  {
    KeywordRatioSymmetric(Keywords(desc1), Keywords(desc2));
  }

  lemma KeywordRatioSymmetric(k1: set<string>, k2: set<string>)
    ensures KeywordRatio(k1, k2) == KeywordRatio(k2, k1)
  {
    assert k1 * k2 == k2 * k1;
    assert Min(|k1|, |k2|) == Min(|k2|, |k1|);
  }

  lemma RatioAtMostTen(c: int, m: int)
    requires 0 < c <= m
    ensures 10.0 * (c as real) / (m as real) <= 10.0
  {
    assert (c as real) / (m as real) <= 1.0;
  }

  function Min(a: int, b: int): int
  {
    if a < b then a else b
  }

  /** The common keywords are no more than the smaller set. */
  lemma CommonBound(k1: set<string>, k2: set<string>)
    ensures |k1 * k2| <= Min(|k1|, |k2|)
  {
    assert k1 * k2 <= k1;
    assert k1 * k2 <= k2;
    SubsetCard(k1 * k2, k1);
    SubsetCard(k1 * k2, k2);
  }

  lemma {:induction false} SubsetCard(a: set<string>, b: set<string>)
    requires a <= b
    ensures |a| <= |b|
    decreases |b|
  {
    if a != {} {
      var x :| x in a;
      SubsetCard(a - {x}, b - {x});
    }
  }

  // ---------------------------------------------------------------- overall score

  /** `Math.round` on the non-negative values it sees here. */
  function Round(x: real): int
  {
    (x + 0.5).Floor
  }

  /** The four integer sub-scores. */
  function BaseScore(a: Item, b: Item): (r: int)
    ensures 0 <= r <= 90
  {
    CategoryScore(a.category, b.category) + ColorScore(a.color, b.color)
    + LocationScore(a.location, b.location) + TimeScore(a.createdAt, b.createdAt)
  }

  /** `calculateMatchScore`: the rounded sum of the five sub-scores, an integer from 0 to 100. */
  function MatchScore(a: Item, b: Item): (r: int)
    ensures 0 <= r <= 100
    ensures BaseScore(a, b) <= r <= BaseScore(a, b) + 10
  {
    var kw := KeywordScore(a.description, b.description);
    RoundBounds(BaseScore(a, b), kw);
    Round(BaseScore(a, b) as real + kw)
  }

  lemma RoundBounds(n: int, kw: real)
    requires 0.0 <= kw <= 10.0
    ensures n <= Round(n as real + kw) <= n + 10
  {
  }

  /**
   * `calculateMatchScore` as the source computes it, adding one sub-score
   * after another to a running total and rounding at the end.
   */
  method CalculateMatchScore(item1: Item, item2: Item) returns (r: int)
    ensures r == MatchScore(item1, item2)
    ensures 0 <= r <= 100
  {
    // The first four sub-scores are whole numbers, so their running total is kept as an `int`.
    var score := 0;
    if item1.category != "" && item2.category != "" {
      if ToLower(item1.category) == ToLower(item2.category) {
        score := score + 30;
      } else {
        var cat1 := ToLower(item1.category);
        var cat2 := ToLower(item2.category);
        if Contains(cat1, cat2) || Contains(cat2, cat1) {
          score := score + 15;
        }
      }
    }
    assert score == CategoryScore(item1.category, item2.category);
    if item1.color != "" && item2.color != "" {
      if ToLower(item1.color) == ToLower(item2.color) {
        score := score + 25;
      } else if AreSimilarColors(item1.color, item2.color) {
        score := score + 15;
      }
    }
    assert score == CategoryScore(item1.category, item2.category) + ColorScore(item1.color, item2.color);
    score := score + LocationScore(item1.location, item2.location);
    score := score + TimeScore(item1.createdAt, item2.createdAt);
    assert score == BaseScore(item1, item2);
    var total := score as real + KeywordScore(item1.description, item2.description);
    r := Round(total);
  }

  /** The score does not depend on which item comes first. */
  lemma MatchScoreSymmetric(a: Item, b: Item)
    ensures MatchScore(a, b) == MatchScore(b, a)
  {
    CategorySymmetric(a.category, b.category);
    ColorSymmetric(a.color, b.color);
    LocationSymmetric(a.location, b.location);
    KeywordSymmetric(a.description, b.description);
    assert TimeScore(a.createdAt, b.createdAt) == TimeScore(b.createdAt, a.createdAt);
    assert BaseScore(a, b) == BaseScore(b, a);
  }

  /** An item compared with itself, every field present and at least one keyword, scores 100. */
  lemma SelfMatchIsPerfect(a: Item)
    requires a.category != "" && a.color != "" && a.location != "" && a.createdAt.Some?
    requires Keywords(a.description) != {}
    ensures MatchScore(a, a) == 100
  {
    var k := Keywords(a.description);
    assert k * k == k;
    assert KeywordScore(a.description, a.description) == 10.0;
  }

  /**
   * Items with unrelated categories, colours, locations and descriptions,
   * reported more than two weeks apart (or without a date), score 0.
   */
  lemma UnrelatedItemsScoreZero(a: Item, b: Item)
    requires a.category == "" || b.category == ""
             || (!Contains(ToLower(a.category), ToLower(b.category)) && !Contains(ToLower(b.category), ToLower(a.category)))
    requires a.color == "" || b.color == "" || (ToLower(a.color) != ToLower(b.color) && !AreSimilarColors(a.color, b.color))
    requires a.location == "" || b.location == ""
             || (ToLower(a.location) != ToLower(b.location)
                 && !(ExtractBuilding(ToLower(a.location)).Some? && ExtractBuilding(ToLower(a.location)) == ExtractBuilding(ToLower(b.location)))
                 && !ShareCommonArea(ToLower(a.location), ToLower(b.location)))
    requires a.createdAt.None? || b.createdAt.None? || Abs(a.createdAt.value - b.createdAt.value) > 14 * Day
    requires Keywords(a.description) * Keywords(b.description) == {}
    ensures MatchScore(a, b) == 0
  {
    if a.category != "" && b.category != "" {
      ContainsSelf(ToLower(a.category));
    }
  }

  /** Every string contains itself. */
  lemma ContainsSelf(s: string)
    ensures Contains(s, s)
  {
  }

  // ---------------------------------------------------------------- matches

  /** `item.type === 'lost' ? 'found' : 'lost'` */
  function OppositeType(t: string): (r: string)
    ensures r in {"lost", "found"} && (t == "lost" <==> r == "found")
  {
    if t == "lost" then "found" else "lost"
  }

  /** A candidate with its score against the item being matched. */
  datatype Match = Match(item: Item, score: int, sourceItem: Item)

  function Scored(item: Item, candidates: seq<Item>): (r: seq<Match>)
    ensures |r| == |candidates|
    ensures forall i :: 0 <= i < |r| ==> r[i] == Match(candidates[i], MatchScore(item, candidates[i]), item)
  {
    seq(|candidates|, i requires 0 <= i < |candidates| => Match(candidates[i], MatchScore(item, candidates[i]), item))
  }

  /** `match => match.score >= minScore` */
  function AtLeast(minScore: int): Match -> bool
  {
    (m: Match) => m.score >= minScore
  }

  function MatchKey(m: Match): int
  {
    m.score
  }

  /**
   * `findMatches`: the active items of the opposite type scoring at least
   * `minScore`, best first; no matches when the query fails.
   */
  function FindMatches(item: Item, query: (string, string) -> Result<seq<Item>, string>, minScore: int): (r: seq<Match>)
    ensures query(OppositeType(item.itemType), "active").Err? ==> r == []
    ensures query(OppositeType(item.itemType), "active").Ok? ==> |r| <= |query(OppositeType(item.itemType), "active").value|
  {
    match query(OppositeType(item.itemType), "active")
    case Err(_) => []
    case Ok(candidates) => Ranked(item, candidates, minScore)
  }

  /** The candidates scoring at least `minScore` against `item`, best first. */
  function Ranked(item: Item, candidates: seq<Item>, minScore: int): seq<Match>
  {
    SortDesc(Filter(Scored(item, candidates), AtLeast(minScore)), MatchKey)
  }

  /** Every ranked match is a candidate with its true score, at least `minScore`. */
  lemma RankedSound(item: Item, candidates: seq<Item>, minScore: int)
    ensures var r := Ranked(item, candidates, minScore);
      forall i :: 0 <= i < |r| ==>
        r[i].score >= minScore && r[i].sourceItem == item && r[i].score == MatchScore(item, r[i].item) && r[i].item in candidates
  {
    var r := Ranked(item, candidates, minScore);
    SortedSelection(Scored(item, candidates), AtLeast(minScore), MatchKey);
    forall i | 0 <= i < |r|
      ensures r[i].score >= minScore && r[i].sourceItem == item && r[i].score == MatchScore(item, r[i].item) && r[i].item in candidates
    {
      assert r[i] in r;
      ScoredElement(item, candidates, r[i]);
    }
  }

  /** A scored candidate carries its item's true score. */
  lemma ScoredElement(item: Item, candidates: seq<Item>, m: Match)
    requires m in Scored(item, candidates)
    ensures m.item in candidates && m.sourceItem == item && m.score == MatchScore(item, m.item)
  {
    var scored := Scored(item, candidates);
    var k :| 0 <= k < |scored| && scored[k] == m;
    assert candidates[k] == m.item;
  }

  /** Every candidate scoring at least `minScore` is ranked. */
  lemma RankedComplete(item: Item, candidates: seq<Item>, minScore: int)
    ensures forall j :: 0 <= j < |candidates| && MatchScore(item, candidates[j]) >= minScore ==>
      Match(candidates[j], MatchScore(item, candidates[j]), item) in Ranked(item, candidates, minScore)
  {
    var scored := Scored(item, candidates);
    SortedSelection(scored, AtLeast(minScore), MatchKey);
    forall j | 0 <= j < |candidates| && MatchScore(item, candidates[j]) >= minScore
      ensures scored[j] in scored && AtLeast(minScore)(scored[j])
    {
    }
  }

  /**
   * Every match is a queried candidate with its true score, at least
   * `minScore`; every such candidate is present; the list is best first.
   */
  lemma FindMatchesSpec(item: Item, query: (string, string) -> Result<seq<Item>, string>, minScore: int)
    ensures var r := FindMatches(item, query, minScore);
      SortedDesc(r, MatchKey) &&
      (forall i :: 0 <= i < |r| ==> r[i].score >= minScore && r[i].sourceItem == item && r[i].score == MatchScore(item, r[i].item))
    ensures query(OppositeType(item.itemType), "active").Err? ==> FindMatches(item, query, minScore) == []
    ensures query(OppositeType(item.itemType), "active").Ok? ==>
      var candidates := query(OppositeType(item.itemType), "active").value;
      (forall i :: 0 <= i < |FindMatches(item, query, minScore)| ==> FindMatches(item, query, minScore)[i].item in candidates) &&
      forall j :: 0 <= j < |candidates| && MatchScore(item, candidates[j]) >= minScore ==>
        Match(candidates[j], MatchScore(item, candidates[j]), item) in FindMatches(item, query, minScore)
  {
    var q := query(OppositeType(item.itemType), "active");
    if q.Ok? {
      SortedSelection(Scored(item, q.value), AtLeast(minScore), MatchKey);
      RankedSound(item, q.value, minScore);
      RankedComplete(item, q.value, minScore);
    }
  }

  /** A lost/found pair with its score; `id` is `${lost.id}-${found.id}`. */
  datatype Pair = Pair(id: string, lostItem: Item, foundItem: Item, score: int)

  function PairKey(p: Pair): int
  {
    p.score
  }

  function PairOf(lost: Item, found: Item): (p: Pair)
    ensures p.lostItem == lost && p.foundItem == found && p.score == MatchScore(lost, found)
    ensures p.id == lost.id + "-" + found.id
  {
    Pair(lost.id + "-" + found.id, lost, found, MatchScore(lost, found))
  }

  /** A pair qualifies when its score reaches `minScore`. */
  function Reaches(minScore: int): Pair -> bool
  {
    (p: Pair) => p.score >= minScore
  }

  /** The pairs of one lost item with each found item that reach `minScore`, in found order. */
  function RowMatches(lost: Item, found: seq<Item>, minScore: int): seq<Pair>
  {
    RowOf(lost, found, PairOf, Reaches(minScore))
  }

  /** The qualifying pairs of the lost × found cross product, lost-major, in the order the loops visit them. */
  function CrossMatches(lost: seq<Item>, found: seq<Item>, minScore: int): seq<Pair>
  {
    CrossOf(lost, found, PairOf, Reaches(minScore))
  }

  /** A pair of the cross product is a lost item with a found item, scored, reaching `minScore`. */
  lemma CrossMatchesElement(lost: seq<Item>, found: seq<Item>, minScore: int, k: int)
    requires 0 <= k < |CrossMatches(lost, found, minScore)|
    ensures var p := CrossMatches(lost, found, minScore)[k];
      p.lostItem in lost && p.foundItem in found && p == PairOf(p.lostItem, p.foundItem) && p.score >= minScore
  {
    var i, j := CrossOfElement(lost, found, PairOf, Reaches(minScore), k);
    assert Reaches(minScore)(PairOf(lost[i], found[j]));
  }

  /** Every qualifying pair is in the cross product. */
  lemma CrossMatchesComplete(lost: seq<Item>, found: seq<Item>, minScore: int, i: int, j: int)
    requires 0 <= i < |lost| && 0 <= j < |found| && MatchScore(lost[i], found[j]) >= minScore
    ensures PairOf(lost[i], found[j]) in CrossMatches(lost, found, minScore)
  {
    assert Reaches(minScore)(PairOf(lost[i], found[j]));
    CrossOfComplete(lost, found, PairOf, Reaches(minScore), i, j);
  }

  /**
   * `getAllMatches`, given the outcomes of its two queries (`lost` and `found`
   * items with status `active`): the qualifying pairs best first, or none
   * when either query fails.
   */
  function AllMatches(lostItems: Result<seq<Item>, string>, foundItems: Result<seq<Item>, string>, minScore: int): (r: seq<Pair>)
    ensures lostItems.Err? || foundItems.Err? ==> r == []
  {
    if lostItems.Err? || foundItems.Err? then []
    else SortDesc(CrossMatches(lostItems.value, foundItems.value, minScore), PairKey)
  }

  /** `getAllMatches` lists its pairs best first. */
  lemma AllMatchesSorted(lostItems: Result<seq<Item>, string>, foundItems: Result<seq<Item>, string>, minScore: int)
    ensures SortedDesc(AllMatches(lostItems, foundItems, minScore), PairKey)
  {
    if lostItems.Ok? && foundItems.Ok? {
      SortDescSorted(CrossMatches(lostItems.value, foundItems.value, minScore), PairKey);
    }
  }

  /**
   * Every listed pair is a queried lost item with a queried found item, its
   * true score, at least `minScore`; every such pair is listed; pairs with
   * equal scores stay in loop order.
   */
  lemma AllMatchesContents(lost: seq<Item>, found: seq<Item>, minScore: int)
    ensures var r := AllMatches(Ok(lost), Ok(found), minScore);
      (forall i :: 0 <= i < |r| ==>
         r[i].score >= minScore && r[i] == PairOf(r[i].lostItem, r[i].foundItem) &&
         r[i].lostItem in lost && r[i].foundItem in found) &&
      (forall i, j :: 0 <= i < |lost| && 0 <= j < |found| && MatchScore(lost[i], found[j]) >= minScore ==>
         PairOf(lost[i], found[j]) in r) &&
      (forall k :: WithKey(r, PairKey, k) == WithKey(CrossMatches(lost, found, minScore), PairKey, k))
  {
    var cross := CrossMatches(lost, found, minScore);
    var r := AllMatches(Ok(lost), Ok(found), minScore);
    assert r == SortDesc(cross, PairKey);
    SortDescPermutes(cross, PairKey);
    forall i | 0 <= i < |r|
      ensures r[i].score >= minScore && r[i] == PairOf(r[i].lostItem, r[i].foundItem)
      ensures r[i].lostItem in lost && r[i].foundItem in found
    {
      assert r[i] in multiset(cross);
      var k :| 0 <= k < |cross| && cross[k] == r[i];
      CrossMatchesElement(lost, found, minScore, k);
    }
    forall i, j | 0 <= i < |lost| && 0 <= j < |found| && MatchScore(lost[i], found[j]) >= minScore
      ensures PairOf(lost[i], found[j]) in r
    {
      CrossMatchesComplete(lost, found, minScore, i, j);
      assert PairOf(lost[i], found[j]) in multiset(r);
    }
    forall k
      ensures WithKey(r, PairKey, k) == WithKey(cross, PairKey, k)
    {
      SortDescStable(cross, PairKey, k);
    }
  }

  /**
   * `getAllMatches` as the source runs it: the two queries, then nested loops
   * pushing each qualifying pair, then the sort.
   */
  method GetAllMatches(query: (string, string) -> Result<seq<Item>, string>, minScore: int) returns (r: seq<Pair>)
    ensures r == AllMatches(query("lost", "active"), query("found", "active"), minScore)
  {
    var lostItems := query("lost", "active");
    var foundItems := query("found", "active");
    if lostItems.Err? || foundItems.Err? {
      return [];
    }
    var matches := CrossProduct(lostItems.value, foundItems.value, minScore);
    r := SortDesc(matches, PairKey);
  }

  /** The outer loop of `getAllMatches`: each lost item in turn against all found items. */
  method CrossProduct(lost: seq<Item>, found: seq<Item>, minScore: int) returns (matches: seq<Pair>)
    ensures matches == CrossMatches(lost, found, minScore)
  {
    matches := [];
    var i := 0;
    while i < |lost|
      invariant 0 <= i <= |lost|
      invariant matches == CrossMatches(lost[..i], found, minScore)
    {
      matches := PushRow(matches, lost[i], found, minScore);
      CrossOfSnoc(lost, found, PairOf, Reaches(minScore), i);
      i := i + 1;
    }
    assert lost[..i] == lost;
  }

  /** The inner loop of `getAllMatches`: one lost item against each found item, pushing the pairs that qualify. */
  method PushRow(matches: seq<Pair>, lost: Item, found: seq<Item>, minScore: int) returns (r: seq<Pair>)
    ensures r == matches + RowMatches(lost, found, minScore)
  {
    r := matches;
    var j := 0;
    while j < |found|
      invariant 0 <= j <= |found|
      invariant r == matches + RowMatches(lost, found[..j], minScore)
    {
      var score := CalculateMatchScore(lost, found[j]);
      RowMatchesSnoc(lost, found, minScore, j);
      if score >= minScore {
        var pair := Pair(lost.id + "-" + found[j].id, lost, found[j], score);
        assert pair == PairOf(lost, found[j]);
        AppendAssoc(matches, RowMatches(lost, found[..j], minScore), [pair]);
        r := r + [pair];
      }
      j := j + 1;
    }
    assert found[..j] == found;
  }

  /** One more found item extends the row by its pair, when that pair qualifies. */
  lemma RowMatchesSnoc(lost: Item, found: seq<Item>, minScore: int, j: int)
    requires 0 <= j < |found|
    ensures RowMatches(lost, found[..j + 1], minScore) ==
      RowMatches(lost, found[..j], minScore) + if MatchScore(lost, found[j]) >= minScore then [PairOf(lost, found[j])] else []
  {
    RowOfSnoc(lost, found, PairOf, Reaches(minScore), j);
  }

  /** `getMatchRecommendations`: the first `limit` pairs of `getAllMatches(70)`. */
  method GetMatchRecommendations(query: (string, string) -> Result<seq<Item>, string>, limit: int) returns (r: seq<Pair>)
    ensures r == Slice0(AllMatches(query("lost", "active"), query("found", "active"), 70), limit)
  {
    var all := GetAllMatches(query, 70);
    r := Slice0(all, limit);
  }

  /** The recommendations are best first and none scores below 70. */
  lemma RecommendationsSpec(lostItems: Result<seq<Item>, string>, foundItems: Result<seq<Item>, string>, limit: int)
    ensures var r := Slice0(AllMatches(lostItems, foundItems, 70), limit);
      SortedDesc(r, PairKey) && forall i :: 0 <= i < |r| ==> r[i].score >= 70
  {
    var all := AllMatches(lostItems, foundItems, 70);
    var r := Slice0(all, limit);
    AllMatchesSorted(lostItems, foundItems, 70);
    if lostItems.Ok? && foundItems.Ok? {
      AllMatchesContents(lostItems.value, foundItems.value, 70);
    }
    assert forall i :: 0 <= i < |r| ==> r[i] == all[i];
  }

  // ---------------------------------------------------------------- confidence

  datatype Confidence = Confidence(name: string, color: string)

  /** The rank of a label, from Low (0) to Excellent (3). */
  function Rank(c: Confidence): int
  {
    if c.name == "Excellent" then 3 else if c.name == "Good" then 2 else if c.name == "Possible" then 1 else 0
  }

  /** `getMatchConfidenceLevel` */
  function ConfidenceLevel(score: int): (r: Confidence)
    ensures r.name == "Excellent" <==> score >= 80
    ensures r.name == "Good" <==> 60 <= score < 80
    ensures r.name == "Possible" <==> 40 <= score < 60
    ensures r.name == "Low" <==> score < 40
  {
    if score >= 80 then Confidence("Excellent", "emerald")
    else if score >= 60 then Confidence("Good", "amber")
    else if score >= 40 then Confidence("Possible", "slate")
    else Confidence("Low", "red")
  }

  /** A higher score never gets a lower label. */
  lemma ConfidenceMonotone(s1: int, s2: int)
    requires s1 <= s2
    ensures Rank(ConfidenceLevel(s1)) <= Rank(ConfidenceLevel(s2))
  {
  }

  /** Every recommendation is labelled Good or Excellent. */
  lemma RecommendationsAtLeastGood(lostItems: Result<seq<Item>, string>, foundItems: Result<seq<Item>, string>, limit: int, i: int)
    requires 0 <= i < |Slice0(AllMatches(lostItems, foundItems, 70), limit)|
    ensures Rank(ConfidenceLevel(Slice0(AllMatches(lostItems, foundItems, 70), limit)[i].score)) >= 2
  {
    RecommendationsSpec(lostItems, foundItems, limit);
  }

  // ---------------------------------------------------------------- scenarios

  function Report(category: string, color: string, location: string, createdAt: int, description: string): Item
  {
    Item("", "lost", "", category, location, None, color, description, [],
         Reporter("", "", "", "", ""), "active", Some(createdAt), Some(createdAt), 0, None)
  }

  /** Same category and colour, the same building, two hours apart, no description: 30 + 25 + 15 + 15 = 85. */
  lemma LibraryScenario(t: int)
    ensures MatchScore(Report("Electronics", "Black", "Library", t, ""),
                       Report("Electronics", "Black", "Library 2nd Floor", t + 7200000, "")) == 85
  {
    var a := Report("Electronics", "Black", "Library", t, "");
    var b := Report("Electronics", "Black", "Library 2nd Floor", t + 7200000, "");
    LibraryLocations();
    assert TimeScore(a.createdAt, b.createdAt) == 15;
    assert BaseScore(a, b) == 85;
    assert KeywordScore("", "") == 0.0;
  }

  /** "Library" and "Library 2nd Floor" differ but name the same building. */
  lemma LibraryLocations()
    ensures LocationScore("Library", "Library 2nd Floor") == 15
  {
    var l1, l2 := ToLower("Library"), ToLower("Library 2nd Floor");
    assert |l1| != |l2|;
    assert l1[..7] == "library" && l2[..7] == "library" by {
      assert forall i :: 0 <= i < 7 ==> l1[i] == l2[i];
      assert l1[0] == 'l' && l1[1] == 'i' && l1[2] == 'b' && l1[3] == 'r' && l1[4] == 'a' && l1[5] == 'r' && l1[6] == 'y';
    }
    assert BuildingPrefix(l1) == Some("library");
    assert BuildingPrefix(l2) == Some("library");
  }

  /** Different categories, unrelated colours and places, thirty days apart: 0. */
  lemma UnrelatedScenario(t: int)
    ensures MatchScore(Report("Wallets", "Brown", "Hostel", t, ""),
                       Report("Electronics", "Blue", "Gym", t + 30 * Day, "")) == 0
  {
    var a := Report("Wallets", "Brown", "Hostel", t, "");
    var b := Report("Electronics", "Blue", "Gym", t + 30 * Day, "");
    WalletsAndElectronics();
    BrownAndBlue();
    HostelAndGym();
    assert TimeScore(a.createdAt, b.createdAt) == 0;
    assert BaseScore(a, b) == 0;
    assert KeywordScore("", "") == 0.0;
  }

  lemma WalletsAndElectronics()
    ensures CategoryScore("Wallets", "Electronics") == 0
  {
    var c1, c2 := ToLower("Wallets"), ToLower("Electronics");
    assert c1[0] == 'w' && |c1| == 7 && |c2| == 11;
    ContainsLength(c1, c2);
    ContainsFirstChar(c2, c1);
    assert forall i :: 0 <= i < |c2| ==> c2[i] != 'w';
  }

  lemma BrownAndBlue()
    ensures ColorScore("Brown", "Blue") == 0
  {
    var c1, c2 := ToLower("Brown"), ToLower("Blue");
    assert c1 == "brown" by {
      assert c1[0] == 'b' && c1[1] == 'r' && c1[2] == 'o' && c1[3] == 'w' && c1[4] == 'n';
    }
    assert c2 == "blue" by {
      assert c2[0] == 'b' && c2[1] == 'l' && c2[2] == 'u' && c2[3] == 'e';
    }
    PlainWord("brown");
    PlainWord("blue");
    BrownAndBlueApart();
  }

  /** Brown is only in the brown group, which has no blue. */
  lemma BrownAndBlueApart()
    ensures !InOneGroup("brown", "blue")
  {
    var groups := ColorGroups();
    forall g | 0 <= g < |groups| && "brown" in groups[g]
      ensures g == 7
    {
      var i :| 0 <= i < |groups[g]| && groups[g][i] == "brown";
    }
    assert "blue" !in groups[7] by {
      forall i | 0 <= i < |groups[7]|
        ensures groups[7][i] != "blue"
      {
      }
    }
  }

  lemma HostelAndGym()
    ensures LocationScore("Hostel", "Gym") == 0
  {
    var l1, l2 := ToLower("Hostel"), ToLower("Gym");
    assert l2 == "gym" by {
      assert l2[0] == 'g' && l2[1] == 'y' && l2[2] == 'm';
    }
    assert ExtractBuilding("gym") == None by {
      assert BuildingPrefix("gym") == None;
      assert "gym"[1..] == "ym" && "ym"[1..] == "m" && "m"[1..] == [];
      assert BuildingPrefix("ym") == None;
      assert BuildingPrefix("m") == None;
    }
    assert l1 != l2 by {
      assert |l1| != |l2|;
    }
    forall i | 0 <= i < |CommonAreas()|
      ensures !Contains(l2, CommonAreas()[i])
    {
      ContainsFirstChar(l2, CommonAreas()[i]);
    }
  }
}
