/** The diary page's mood analysis: an entry is lower-cased, split on single
    spaces, and the words containing a positive or a negative keyword are
    counted; the larger count decides the mood. */
module Diary {
  import opened Ui
  import opened JsString

  const PositiveWords: seq<string> :=
    ["happy", "good", "great", "amazing", "wonderful", "excited", "joy", "love", "peaceful", "calm"]

  const NegativeWords: seq<string> :=
    ["sad", "bad", "terrible", "awful", "depressed", "angry", "frustrated", "anxious", "worried", "stressed"]

  /** Lower-casing leaves the spaces where they are. */
  lemma {:induction false} LowerKeepsSpaces(s: string)
    ensures Occurrences(ToLowerCase(s), ' ') == Occurrences(s, ' ')
  {
    if |s| > 0 {
      LowerKeepsSpaces(s[1..]);
      assert ToLowerCase(s)[1..] == ToLowerCase(s[1..]);
    }
  }

  /** `text.toLowerCase().split(' ')`: one word more than there are spaces,
      no word holds a space, and the words joined by spaces are the
      lower-cased text. */
  function Words(text: string): (ws: seq<string>)
    ensures |ws| == Occurrences(text, ' ') + 1
    ensures forall i :: 0 <= i < |ws| ==> ' ' !in ws[i]
    ensures Join(ws, ' ') == ToLowerCase(text)
  {
    var lower := ToLowerCase(text);
    SplitLength(lower, ' ');
    LowerKeepsSpaces(text);
    JoinSplit(lower, ' ');
    Split(lower, ' ')
  }

  /** `keywords.some(k => word.includes(k))`: some keyword occurs in the
      word at some offset. */
  predicate MatchesAny(word: string, keywords: seq<string>)
    ensures MatchesAny(word, keywords) <==>
      exists i: nat, j: nat :: i < |keywords| && OccursAt(word, keywords[i], j)
  {
    IncludesIffEach(word, keywords);
    exists i :: 0 <= i < |keywords| && Includes(word, keywords[i])
  }

  /** `words.filter(word => MatchesAny(word, keywords))`: the matching words,
      in order, each kept once however many keywords it contains. */
  function Filter(words: seq<string>, keywords: seq<string>): (r: seq<string>)
    ensures |r| <= |words|
    ensures forall i :: 0 <= i < |r| ==> MatchesAny(r[i], keywords) && r[i] in words
  {
    if |words| == 0 then []
    else (if MatchesAny(words[0], keywords) then [words[0]] else []) + Filter(words[1..], keywords)
  }

  lemma {:induction false} FilterAppend(a: seq<string>, b: seq<string>, keywords: seq<string>)
    ensures Filter(a + b, keywords) == Filter(a, keywords) + Filter(b, keywords)
  {
    if |a| > 0 {
      FilterAppend(a[1..], b, keywords);
      assert (a + b)[0] == a[0];
      assert (a + b)[1..] == a[1..] + b;
    } else {
      assert a + b == b;
    }
  }

  /** Positions among the first `n` words whose word contains a keyword. */
  ghost function MatchingPositions(words: seq<string>, keywords: seq<string>, n: nat): set<nat>
    requires n <= |words|
  {
    set i: nat | i < n && MatchesAny(words[i], keywords)
  }

  /** The filtered length is the number of positions whose word matches:
      a count of words, not of keyword occurrences. */
  lemma {:induction false} FilterCountsPositions(words: seq<string>, keywords: seq<string>, n: nat)
    requires n <= |words|
    ensures |Filter(words[..n], keywords)| == |MatchingPositions(words, keywords, n)|
  {
    if n > 0 {
      FilterCountsPositions(words, keywords, n - 1);
      assert words[..n] == words[..n - 1] + [words[n - 1]];
      FilterAppend(words[..n - 1], [words[n - 1]], keywords);
      assert [words[n - 1]][1..] == [];
      MatchingPositionsStep(words, keywords, n);
    }
  }

  /** Extending the prefix by one word adds its position exactly when it matches. */
  lemma MatchingPositionsStep(words: seq<string>, keywords: seq<string>, n: nat)
    requires 0 < n <= |words|
    ensures MatchingPositions(words, keywords, n) ==
      MatchingPositions(words, keywords, n - 1) + (if MatchesAny(words[n - 1], keywords) then {n - 1} else {})
  {
    var before := MatchingPositions(words, keywords, n - 1);
    if MatchesAny(words[n - 1], keywords) {
      assert MatchingPositions(words, keywords, n) == before + {n - 1};
    } else {
      assert MatchingPositions(words, keywords, n) == before;
    }
  }

  /** `positiveCount`: the number of words of `text` that contain a
      positive keyword. */
  function PositiveCount(text: string): (n: nat)
    ensures n <= Occurrences(text, ' ') + 1
    ensures n == |MatchingPositions(Words(text), PositiveWords, |Words(text)|)|
  {
    var ws := Words(text);
    FilterCountsPositions(ws, PositiveWords, |ws|);
    assert ws[..|ws|] == ws;
    |Filter(ws, PositiveWords)|
  }

  /** `negativeCount`: the number of words of `text` that contain a
      negative keyword. */
  function NegativeCount(text: string): (n: nat)
    ensures n <= Occurrences(text, ' ') + 1
    ensures n == |MatchingPositions(Words(text), NegativeWords, |Words(text)|)|
  {
    var ws := Words(text);
    FilterCountsPositions(ws, NegativeWords, |ws|);
    assert ws[..|ws|] == ws;
    |Filter(ws, NegativeWords)|
  }

  datatype MoodAnalysis = MoodAnalysis(mood: string, level: Level, suggestions: seq<string>)

  /** `analyzeMood`: exactly one of three outcomes, decided by comparing the
      two counts. */
  function AnalyzeMood(text: string): (r: MoodAnalysis)
    ensures r.level == High <==> PositiveCount(text) > NegativeCount(text)
    ensures r.level == Low <==> NegativeCount(text) > PositiveCount(text)
    ensures r.level == Medium <==> PositiveCount(text) == NegativeCount(text)
    ensures r.mood == "Positive" <==> r.level == High
    ensures r.mood == "Challenging" <==> r.level == Low
    ensures r.mood == "Neutral" <==> r.level == Medium
    ensures |r.suggestions| == 4
  {
    var positive, negative := PositiveCount(text), NegativeCount(text);
    if positive > negative then
      MoodAnalysis("Positive", High, [
        "Keep up the great work! Continue your healthy habits.",
        "Consider sharing your positive energy with others.",
        "Schedule regular study breaks to maintain your wellbeing.",
        "Practice gratitude journaling to reinforce positive thoughts."])
    else if negative > positive then
      MoodAnalysis("Challenging", Low, [
        "It's okay to feel this way. Consider talking to a therapist.",
        "Try some deep breathing exercises or meditation.",
        "Reach out to friends or family for support.",
        "Consider professional counseling if these feelings persist."])
    else
      MoodAnalysis("Neutral", Medium, [
        "Try watching some wellness videos for inspiration.",
        "Consider doing a light physical activity like walking.",
        "Practice mindfulness or meditation.",
        "Connect with friends or engage in a hobby you enjoy."])
  }

  /** The analysis ignores letter case. */
  lemma AnalyzeMoodIgnoresCase(text: string)
    ensures AnalyzeMood(ToLowerCase(text)) == AnalyzeMood(text)
  {
    ToLowerCaseIdempotent(text);
    assert Words(ToLowerCase(text)) == Words(text);
  }

  /** The empty word that a run of spaces produces matches no keyword. */
  lemma EmptyWordMatchesNothing()
    ensures !MatchesAny("", PositiveWords) && !MatchesAny("", NegativeWords)
  {
  }

  /** Splitting is on the single space only: two spaces in a row leave an
      empty word between them. */
  lemma DoubleSpaceGivesEmptyWord()
    ensures Words("a  b") == ["a", "", "b"]
  {
    assert ToLowerCase("a  b") == "a  b";
    assert Join(["a", "", "b"], ' ') == "a  b";
    SplitJoin(["a", "", "b"], ' ');
  }

  /** A text without spaces is one word, so it counts at most once on each
      side, however many keywords it contains. */
  lemma SingleWordCountsOnce(text: string)
    requires ' ' !in text
    ensures PositiveCount(text) == if MatchesAny(ToLowerCase(text), PositiveWords) then 1 else 0
    ensures NegativeCount(text) == if MatchesAny(ToLowerCase(text), NegativeWords) then 1 else 0
  {
    assert ' ' !in ToLowerCase(text) by {
      forall i | 0 <= i < |text| ensures ToLowerCase(text)[i] != ' ' {
        assert text[i] != ' ';
      }
    }
    SplitPiece(ToLowerCase(text), ' ');
    assert Words(text) == [ToLowerCase(text)];
  }

  /** Matching is by substring: "unhappy" contains "happy" and counts as a
      positive word. */
  lemma UnhappyCountsPositive()
    ensures PositiveCount("unhappy") == 1
  {
    assert ToLowerCase("unhappy") == "unhappy";
    SingleWordCountsOnce("unhappy");
    assert "unhappy"[2..7] == "happy";
    IncludesAt("unhappy", "happy", 2);
    assert Includes("unhappy", PositiveWords[0]);
  }

  lemma LowerHappy()
    ensures ToLowerCase("HAPPY") == "happy"
  {
    var r := ToLowerCase("HAPPY");
    assert r[0] == 'h' && r[1] == 'a' && r[2] == 'p' && r[3] == 'p' && r[4] == 'y';
  }

  /** Case is ignored: "HAPPY" lower-cases to "happy" and counts as a
      positive word. */
  lemma ShoutedHappyCountsPositive()
    ensures PositiveCount("HAPPY") == 1
  {
    LowerHappy();
    SingleWordCountsOnce("HAPPY");
    IncludesAt("happy", "happy", 0);
    assert Includes("happy", PositiveWords[0]);
  }

  /** "sadhappy" contains a positive keyword. */
  lemma SadHappyIsPositive()
    ensures MatchesAny("sadhappy", PositiveWords)
  {
    assert "sadhappy"[3..8] == "happy";
    IncludesAt("sadhappy", "happy", 3);
    assert Includes("sadhappy", PositiveWords[0]);
  }

  /** "sadhappy" contains a negative keyword. */
  lemma SadHappyIsNegative()
    ensures MatchesAny("sadhappy", NegativeWords)
  {
    assert "sadhappy"[0..3] == "sad";
    IncludesAt("sadhappy", "sad", 0);
    assert Includes("sadhappy", NegativeWords[0]);
  }

  /** One word may count on both sides: "sadhappy" is one positive and one
      negative word, so the analysis is neutral. */
  lemma OneWordCountsOnBothSides()
    ensures PositiveCount("sadhappy") == 1 && NegativeCount("sadhappy") == 1
    ensures AnalyzeMood("sadhappy").level == Medium
  {
    assert ToLowerCase("sadhappy") == "sadhappy";
    SingleWordCountsOnce("sadhappy");
    SadHappyIsPositive();
    SadHappyIsNegative();
  }

  datatype SaveResult = SaveResult(analysis: Option<MoodAnalysis>, toast: Toast)

  const EmptyEntryToast: Toast :=
    Toast("Empty Entry", "Please write something in your diary first.", true)

  const SavedToast: Toast :=
    Toast("Diary Entry Saved", "Your entry has been analyzed and saved successfully.", false)

  /** `handleSave`: an entry that is only white space keeps the current
      analysis and raises the "Empty Entry" toast; any other entry replaces
      it with the entry's analysis. */
  function HandleSave(entry: string, current: Option<MoodAnalysis>): (r: SaveResult)
    ensures IsBlank(entry) ==> r == SaveResult(current, EmptyEntryToast)
    ensures !IsBlank(entry) ==> r == SaveResult(Some(AnalyzeMood(entry)), SavedToast)
  {
    TrimEmptyIff(entry);
    if Trim(entry) == "" then SaveResult(current, EmptyEntryToast)
    else SaveResult(Some(AnalyzeMood(entry)), SavedToast)
  }

  /** `getMoodColor`: each level has its own colour class. */
  function MoodColor(l: Level): (color: string)
    ensures color == "text-wellness" <==> l == High
    ensures color == "text-support" <==> l == Medium
    ensures color == "text-destructive" <==> l == Low
  {
    match l
    case High => "text-wellness"
    case Medium => "text-support"
    case Low => "text-destructive"
  }

  /** The three levels are shown in three different colours. */
  lemma MoodColorInjective(l1: Level, l2: Level)
    requires l1 != l2
    ensures MoodColor(l1) != MoodColor(l2)
  {
  }

  datatype MoodGlyph = Smile | Meh | Frown

  /** `getMoodIcon`: the glyph, drawn in the level's colour. */
  function MoodIcon(l: Level): (icon: (MoodGlyph, string))
    ensures icon.1 == MoodColor(l)
  {
    match l
    case High => (Smile, "text-wellness")
    case Medium => (Meh, "text-support")
    case Low => (Frown, "text-destructive")
  }

  /** `level.charAt(0).toUpperCase() + level.slice(1)`: only a lower-case
      first letter changes, into its capital; for a string with no capital
      letters, lower-casing undoes it. */
  function Capitalize(s: string): (r: string)
    ensures |r| == |s|
    ensures |s| > 0 ==> r[1..] == s[1..]
    ensures |s| > 0 && IsLower(s[0]) ==> IsUpper(r[0]) && r[0] as int == s[0] as int - 32
    ensures |s| > 0 && !IsLower(s[0]) ==> r == s
    ensures (forall i :: 0 <= i < |s| ==> !IsUpper(s[i])) ==> ToLowerCase(r) == s
  {
    if |s| == 0 then "" else [UpperChar(s[0])] + s[1..]
  }

  /** The displayed level: the level's name with a capital first letter;
      lower-casing it gives the name back. */
  function DisplayLevel(l: Level): (r: string)
    ensures |r| == |LevelName(l)| && r[1..] == LevelName(l)[1..]
    ensures IsUpper(r[0])
    ensures ToLowerCase(r) == LevelName(l)
  {
    Capitalize(LevelName(l))
  }

  datatype MoodAction = FindATherapist | WatchWellnessVideos | ShareYourSuccess

  /** The analysis card's level-conditional buttons: exactly one is rendered. */
  function MoodActions(l: Level): (acts: seq<MoodAction>)
    ensures |acts| == 1
    ensures acts[0] == FindATherapist <==> l == Low
    ensures acts[0] == WatchWellnessVideos <==> l == Medium
    ensures acts[0] == ShareYourSuccess <==> l == High
  {
    (if l == Low then [FindATherapist] else [])
    + (if l == Medium then [WatchWellnessVideos] else [])
    + (if l == High then [ShareYourSuccess] else [])
  }
}
