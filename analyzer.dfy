/** The drift detection and action validation engine (lib/analyzer-simple.ts):
    word extraction, keyword categories, the drift score, tone shifts, the
    implication rules, the "no claim without proof" gate that turns
    implications into action items, and the subject line and status
    partition of the market pulse e-mail. The proof search the gate awaits
    is the filter `Db.MatchingProofs` over the list of all proofs, passed in
    as `vault`; the analysis id and date are parameters. */
module Analyzer {
  import opened Wrappers
  import opened Seqs
  import opened Strings
  import opened Types
  import opened Db

  // ---------------------------------------------------------------------------
  // Word extraction

  /** The characters a word keeps: `[A-Za-z0-9-]`. */
  predicate IsTokenChar(c: char) {
    'A' <= c <= 'Z' || 'a' <= c <= 'z' || '0' <= c <= '9' || c == '-'
  }

  /** `word.replace(/[^a-zA-Z0-9-]/g, '')`. */
  function CleanWord(w: string): string {
    Filter(w, IsTokenChar)
  }

  predicate IsLongWord(w: string) { |w| > 2 }

  /** The words kept from a list of whitespace-separated runs: each run
      cleaned, and only those longer than two characters, in the order of the
      runs and as often as they occur there. */
  function WordsOf(runs: seq<string>): (r: seq<string>)
    ensures forall w {:trigger w in r} :: w in r ==> |w| > 2 && forall i :: 0 <= i < |w| ==> IsTokenChar(w[i])
    ensures forall w {:trigger w in r} :: w in r <==> |w| > 2 && exists run :: run in runs && CleanWord(run) == w
    ensures IsSubsequence(r, Map(runs, CleanWord))
    ensures forall w :: multiset(r)[w] == if |w| > 2 then multiset(Map(runs, CleanWord))[w] else 0
  {
    var cleaned := Map(runs, CleanWord);
    FilterIsSubsequence(cleaned, IsLongWord);
    FilterMultiset(cleaned, IsLongWord);
    CleanedMembers(runs);
    Filter(cleaned, IsLongWord)
  }

  /** A word is a cleaned run exactly when some run cleans to it. */
  lemma CleanedMembers(runs: seq<string>)
    ensures forall w :: w in Map(runs, CleanWord) <==> exists run :: run in runs && CleanWord(run) == w
  {
    forall w ensures w in Map(runs, CleanWord) <==> exists run :: run in runs && CleanWord(run) == w {
      MapMember(runs, CleanWord, w);
    }
  }

  /** The runs of the space-joined texts are exactly the runs of the texts. */
  lemma RunsOfTexts(texts: seq<string>)
    ensures forall run :: run in Runs(Join(texts, " "), IsWhitespace) <==>
      exists k :: 0 <= k < |texts| && run in Runs(texts[k], IsWhitespace)
  {
    var f := (p: string) => Runs(p, IsWhitespace);
    RunsOfJoin(texts);
    forall run ensures run in Runs(Join(texts, " "), IsWhitespace) <==>
      exists k :: 0 <= k < |texts| && run in Runs(texts[k], IsWhitespace)
    {
      FlattenMember(Map(texts, f), run);
    }
  }

  /** `extractWords`: join with spaces, split on whitespace, strip every
      character outside `[A-Za-z0-9-]`, keep what is longer than two. */
  function ExtractWords(texts: seq<string>): (r: seq<string>)
    ensures forall w {:trigger w in r} :: w in r ==> |w| > 2 && forall i :: 0 <= i < |w| ==> IsTokenChar(w[i])
  {
    WordsOf(Runs(Join(texts, " "), IsWhitespace))
  }

  /** A word is extracted exactly when some whitespace-separated run of some
      text cleans to it and it is longer than two characters. */
  lemma ExtractWordsMembers(texts: seq<string>)
    ensures forall w {:trigger w in ExtractWords(texts)} :: w in ExtractWords(texts) <==>
      |w| > 2 && exists k, run :: 0 <= k < |texts| && run in Runs(texts[k], IsWhitespace) && CleanWord(run) == w
  {
    RunsOfTexts(texts);
  }

  /** The words of two lists of runs are the words of each, in order. */
  lemma WordsOfAppend(ra: seq<string>, rb: seq<string>)
    ensures WordsOf(ra + rb) == WordsOf(ra) + WordsOf(rb)
  {
    MapAppend(ra, rb, CleanWord);
    FilterAppend(Map(ra, CleanWord), Map(rb, CleanWord), IsLongWord);
  }

  /** The words of two lists of texts are the words of the first followed by
      the words of the second: joining with a space never merges two texts'
      words. */
  lemma ExtractWordsAppend(a: seq<string>, b: seq<string>)
    ensures ExtractWords(a + b) == ExtractWords(a) + ExtractWords(b)
  {
    if a == [] {
      assert a + b == b;
    } else if b == [] {
      assert a + b == a;
    } else {
      RunsOfJoinAppend(a, b);
      var ra, rb := Runs(Join(a, " "), IsWhitespace), Runs(Join(b, " "), IsWhitespace);
      WordsOfAppend(ra, rb);
      assert ExtractWords(a + b) == WordsOf(ra + rb);
    }
  }

  /** The texts of a snapshot the analyzer compares: hero, subheads, pricing. */
  function SnapshotTexts(s: CompetitorSnapshot): seq<string> {
    [s.heroText] + s.subheads + s.pricingBlocks
  }

  /** `currentWords.filter(word => !baselineWords.includes(word))`. */
  function NewWords(current: seq<string>, baseline: seq<string>): (r: seq<string>)
    ensures forall w :: w in r <==> w in current && w !in baseline
    ensures forall w :: w !in baseline ==> multiset(r)[w] == multiset(current)[w]
    ensures IsSubsequence(r, current)
  {
    var keep := (w: string) => w !in baseline;
    FilterMultiset(current, keep);
    FilterIsSubsequence(current, keep);
    Filter(current, keep)
  }

  /** Capitalised words longer than four characters. */
  predicate IsNounLike(w: string) {
    |w| > 4 && 'A' <= w[0] <= 'Z'
  }

  /** Words ending in `ing`, `ed`, `ify` or `ize`. */
  predicate IsVerbLike(w: string) {
    EndsWith(w, "ing") || EndsWith(w, "ed") || EndsWith(w, "ify") || EndsWith(w, "ize")
  }

  function NounLike(words: seq<string>): (r: seq<string>)
    ensures forall w :: w in r <==> w in words && IsNounLike(w)
    ensures IsSubsequence(r, words)
  {
    FilterIsSubsequence(words, IsNounLike);
    Filter(words, IsNounLike)
  }

  function VerbLike(words: seq<string>): (r: seq<string>)
    ensures forall w :: w in r <==> w in words && IsVerbLike(w)
    ensures IsSubsequence(r, words)
  {
    FilterIsSubsequence(words, IsVerbLike);
    Filter(words, IsVerbLike)
  }

  /** A snapshot compared with itself has no new words. */
  lemma NoNewWordsAgainstItself(words: seq<string>)
    ensures NewWords(words, words) == []
  {
    FilterNonePass(words, (w: string) => w !in words);
  }

  // ---------------------------------------------------------------------------
  // Keyword categories (token-level approximation of the word-boundary regexes)

  predicate IsRegexWordChar(c: char) {
    'a' <= c <= 'z' || 'A' <= c <= 'Z' || '0' <= c <= '9' || c == '_'
  }

  predicate IsNotRegexWordChar(c: char) { !IsRegexWordChar(c) }

  /** `tokens` starts with the tokens of `phrase`. */
  predicate PhraseAt(tokens: seq<string>, phrase: seq<string>)
    decreases |phrase| + |tokens|
  {
    phrase == [] || (tokens != [] && tokens[0] == phrase[0] && PhraseAt(tokens[1..], phrase[1..]))
  }

  /** Occurrences of `phrase` as consecutive tokens of `tokens`. */
  function Occurrences(tokens: seq<string>, phrase: seq<string>): nat
    requires |phrase| > 0
    decreases |tokens|
  {
    if tokens == [] then 0
    else (if PhraseAt(tokens, phrase) then 1 else 0) + Occurrences(tokens[1..], phrase)
  }

  /** The occurrences of every phrase of a vocabulary, added up. */
  function VocabularyCount(tokens: seq<string>, vocabulary: seq<seq<string>>): nat
    requires forall v :: v in vocabulary ==> |v| > 0
    decreases |vocabulary| + |tokens|
  {
    if vocabulary == [] then 0
    else Occurrences(tokens, vocabulary[0]) + VocabularyCount(tokens, vocabulary[1..])
  }

  const AiVocabulary: seq<seq<string>> :=
    [["ai"], ["artificial", "intelligence"], ["machine", "learning"], ["ml"], ["neural"], ["gpt"], ["llm"]]
  const EnterpriseWords: seq<string> := ["enterprise", "business", "organization", "team", "scale"]
  const EnterpriseVocabulary: seq<seq<string>> :=
    [["enterprise"], ["business"], ["organization"], ["team"], ["scale"]]
  const SpeedVocabulary: seq<seq<string>> :=
    [["fast"], ["quick"], ["instant"], ["real", "time"], ["performance"], ["latency"]]
  const SecurityWords: seq<string> := ["secure", "security", "encryption", "compliance", "private", "privacy"]
  const SecurityVocabulary: seq<seq<string>> :=
    [["secure"], ["security"], ["encryption"], ["compliance"], ["private"], ["privacy"]]
  const CostWords: seq<string> := ["free", "cheap", "affordable", "cost", "price", "pricing"]
  const CostVocabulary: seq<seq<string>> :=
    [["free"], ["cheap"], ["affordable"], ["cost"], ["price"], ["pricing"]]

  /** A vocabulary of one-word terms. */
  function Singletons(words: seq<string>): (r: seq<seq<string>>)
    ensures |r| == |words|
    ensures forall i :: 0 <= i < |r| ==> r[i] == [words[i]]
  {
    seq(|words|, i requires 0 <= i < |words| => [words[i]])
  }

  /** How many tokens are one of `words`, each word counted on its own. */
  function WordCount(tokens: seq<string>, words: seq<string>): nat
    decreases |words|
  {
    if words == [] then 0 else multiset(tokens)[words[0]] + WordCount(tokens, words[1..])
  }

  /** A one-word term occurs once per token equal to it, as `\bterm\b`
      matches once per whole word. */
  lemma {:induction false} OccurrencesOfWord(tokens: seq<string>, w: string)
    ensures Occurrences(tokens, [w]) == multiset(tokens)[w]
    decreases |tokens|
  {
    if tokens != [] {
      OccurrencesOfWord(tokens[1..], w);
      assert PhraseAt(tokens, [w]) <==> tokens[0] == w by {
        assert [w][1..] == [];
      }
      assert tokens == [tokens[0]] + tokens[1..];
      assert multiset(tokens) == multiset{tokens[0]} + multiset(tokens[1..]);
    }
  }

  /** A vocabulary of one-word terms counts every token that is one of them. */
  lemma {:induction false} SingleWordVocabularyCount(tokens: seq<string>, words: seq<string>)
    ensures VocabularyCount(tokens, Singletons(words)) == WordCount(tokens, words)
    decreases |words|
  {
    if words != [] {
      SingleWordVocabularyCount(tokens, words[1..]);
      OccurrencesOfWord(tokens, words[0]);
      assert Singletons(words)[0] == [words[0]];
      assert Singletons(words)[1..] == Singletons(words[1..]);
    }
  }

  /** The five counts `categorizeKeywords` returns. */
  datatype KeywordCounts = KeywordCounts(ai: nat, enterprise: nat, speed: nat, security: nat, cost: nat)

  /** `categorizeKeywords`: lower-case the text, cut it into runs of regex word
      characters, and count the vocabulary phrases of each category. */
  function CategorizeKeywords(text: string): KeywordCounts {
    var tokens := Runs(Lower(text), IsNotRegexWordChar);
    KeywordCounts(
      VocabularyCount(tokens, AiVocabulary),
      VocabularyCount(tokens, EnterpriseVocabulary),
      VocabularyCount(tokens, SpeedVocabulary),
      VocabularyCount(tokens, SecurityVocabulary),
      VocabularyCount(tokens, CostVocabulary))
  }

  /** The enterprise, security and cost vocabularies hold one-word terms only. */
  lemma SingleWordVocabularies()
    ensures EnterpriseVocabulary == Singletons(EnterpriseWords)
    ensures SecurityVocabulary == Singletons(SecurityWords)
    ensures CostVocabulary == Singletons(CostWords)
  {
    SameSingletons(EnterpriseVocabulary, EnterpriseWords);
    SameSingletons(SecurityVocabulary, SecurityWords);
    SameSingletons(CostVocabulary, CostWords);
  }

  lemma SameSingletons(vocabulary: seq<seq<string>>, words: seq<string>)
    requires |vocabulary| == |words|
    requires forall i :: 0 <= i < |words| ==> vocabulary[i] == [words[i]]
    ensures vocabulary == Singletons(words)
  {
  }

  /** The enterprise, security and cost terms are single words, so those
      counts are the numbers of tokens that are one of the category's words. */
  lemma CategoryWordCounts(text: string)
    ensures var tokens, r := Runs(Lower(text), IsNotRegexWordChar), CategorizeKeywords(text);
      && r.enterprise == WordCount(tokens, EnterpriseWords)
      && r.security == WordCount(tokens, SecurityWords)
      && r.cost == WordCount(tokens, CostWords)
  {
    var tokens := Runs(Lower(text), IsNotRegexWordChar);
    SingleWordVocabularies();
    SingleWordVocabularyCount(tokens, EnterpriseWords);
    SingleWordVocabularyCount(tokens, SecurityWords);
    SingleWordVocabularyCount(tokens, CostWords);
  }

  // ---------------------------------------------------------------------------
  // Drift score

  /** Index `i` of `current` differs from `baseline`, a missing baseline entry
      counting as different (`sh !== baseline.subheads[i]`). */
  predicate DiffersAt(baseline: seq<string>, current: seq<string>, i: nat)
    requires i < |current|
  {
    i >= |baseline| || current[i] != baseline[i]
  }

  /** `current.filter((x, i) => x !== baseline[i]).length`: the positions of
      `current` whose entry differs from the baseline's at the same position.
      It is zero exactly when `current` is a prefix of `baseline`. */
  function PositionalChanges(baseline: seq<string>, current: seq<string>): (n: nat)
    ensures n <= |current|
    ensures n == 0 <==> current <= baseline
    decreases |current|
  {
    if current == [] then 0
    else
      var rest := if baseline == [] then [] else baseline[1..];
      var tail := PositionalChanges(rest, current[1..]);
      if baseline == [] then
        1 + tail
      else
        assert current <= baseline <==> current[0] == baseline[0] && current[1..] <= baseline[1..];
        (if current[0] != baseline[0] then 1 else 0) + tail
  }

  /** `current.some((x, i) => x !== baseline[i])`. */
  predicate AnyPositionalChange(baseline: seq<string>, current: seq<string>) {
    exists i :: 0 <= i < |current| && DiffersAt(baseline, current, i)
  }

  /** Some position differs exactly when `current` is not a prefix of the baseline. */
  lemma AnyChangeIffNotPrefix(baseline: seq<string>, current: seq<string>)
    ensures AnyPositionalChange(baseline, current) <==> !(current <= baseline)
    ensures AnyPositionalChange(baseline, current) <==> PositionalChanges(baseline, current) > 0
  {
    if !(current <= baseline) {
      if |current| > |baseline| {
        assert DiffersAt(baseline, current, |baseline|);
      } else {
        var i :| 0 <= i < |current| && current[i] != baseline[i];
        assert DiffersAt(baseline, current, i);
      }
    }
  }

  /** Swapping two different entries counts both positions as changed. */
  lemma ReorderingCountsAsChange(x: string, y: string)
    requires x != y
    ensures PositionalChanges([x, y], [y, x]) == 2
    ensures AnyPositionalChange([x, y], [y, x])
  {
    assert [y, x][1..] == [x];
    assert [x, y][1..] == [y];
    assert DiffersAt([x, y], [y, x], 0);
  }

  /** `calculateDriftScore`: 30 for a changed hero, 10 per changed subhead up to
      30, 20 if any pricing block changed, 2 per new word up to 20, at most 100.
      It is 0 exactly when nothing changed. */
  function DriftScore(baseline: CompetitorSnapshot, current: CompetitorSnapshot, newWordCount: nat): (score: nat)
    ensures score <= 100
    ensures score == 0 <==>
      && baseline.heroText == current.heroText
      && current.subheads <= baseline.subheads
      && current.pricingBlocks <= baseline.pricingBlocks
      && newWordCount == 0
    ensures baseline.heroText != current.heroText ==> score >= 30
  {
    AnyChangeIffNotPrefix(baseline.pricingBlocks, current.pricingBlocks);
    var hero := if baseline.heroText != current.heroText then 30 else 0;
    var subheads := Min(PositionalChanges(baseline.subheads, current.subheads) * 10, 30);
    var pricing := if AnyPositionalChange(baseline.pricingBlocks, current.pricingBlocks) then 20 else 0;
    var vocabulary := Min(newWordCount * 2, 20);
    Min(hero + subheads + pricing + vocabulary, 100)
  }

  /** `calculateDriftScore` as the source writes it: one running score, added
      to factor by factor and capped at the end. */
  method CalculateDriftScore(baseline: CompetitorSnapshot, current: CompetitorSnapshot, newWordCount: nat)
    returns (score: nat)
    ensures score == DriftScore(baseline, current, newWordCount)
  {
    score := 0;
    if baseline.heroText != current.heroText {
      score := score + 30;
    }
    var subheadChanges := PositionalChanges(baseline.subheads, current.subheads);
    score := score + Min(subheadChanges * 10, 30);
    var pricingChanged := AnyPositionalChange(baseline.pricingBlocks, current.pricingBlocks);
    if pricingChanged {
      score := score + 20;
    }
    score := score + Min(newWordCount * 2, 20);
    score := Min(score, 100);
  }

  /** Only the hero text differs and no word is new: the score is exactly 30. */
  lemma HeroOnlyScoresThirty(baseline: CompetitorSnapshot, current: CompetitorSnapshot)
    requires baseline.heroText != current.heroText
    requires baseline.subheads == current.subheads && baseline.pricingBlocks == current.pricingBlocks
    ensures DriftScore(baseline, current, 0) == 30
  {
  }

  /** Only the pricing differs and no word is new: the score is exactly 20. */
  lemma PricingOnlyScoresTwenty(baseline: CompetitorSnapshot, current: CompetitorSnapshot)
    requires baseline.heroText == current.heroText && baseline.subheads == current.subheads
    requires !(current.pricingBlocks <= baseline.pricingBlocks)
    ensures DriftScore(baseline, current, 0) == 20
  {
  }

  /** When the current lists are prefixes of longer baseline lists, subheads
      and pricing add nothing: only the hero and the new words count. */
  lemma PrefixListsAddNothing(baseline: CompetitorSnapshot, current: CompetitorSnapshot, n: nat)
    requires current.subheads <= baseline.subheads && current.pricingBlocks <= baseline.pricingBlocks
    ensures DriftScore(baseline, current, n) == (if baseline.heroText != current.heroText then 30 else 0) + Min(2 * n, 20)
  {
    AnyChangeIffNotPrefix(baseline.pricingBlocks, current.pricingBlocks);
  }

  // ---------------------------------------------------------------------------
  // Tone shifts

  const AiShift: string := "Added AI/ML positioning"
  const EnterpriseShift: string := "Moving upmarket to enterprise"
  const SpeedShift: string := "De-emphasizing speed/performance"

  const HeroShiftOpen: string := "Hero text changed from \""
  const HeroShiftMiddle: string := "...\" to \""
  /** The closing ellipsis and quote of a quoted hero excerpt. */
  const QuoteClose: string := "...\""

  /** The hero message: both hero texts cut to 50 characters and quoted. */
  function HeroShift(baseline: CompetitorSnapshot, current: CompetitorSnapshot): (s: string)
    ensures HeroShiftOpen <= s
  {
    HeroShiftOpen + Prefix(baseline.heroText, 50) + HeroShiftMiddle + Prefix(current.heroText, 50) + QuoteClose
  }

  /** The text whose keywords are counted: hero and subheads. */
  function KeywordText(s: CompetitorSnapshot): string {
    s.heroText + " " + Join(s.subheads, " ")
  }

  /** The three category checks, in their fixed order. */
  function CategoryShifts(b: KeywordCounts, c: KeywordCounts): seq<string> {
    (if b.ai < 2 && c.ai >= 2 then [AiShift] else []) +
    (if b.enterprise < 2 && c.enterprise >= 2 then [EnterpriseShift] else []) +
    (if b.speed > c.speed + 1 then [SpeedShift] else [])
  }

  /** What `detectToneShifts` returns. */
  function ToneShifts(baseline: CompetitorSnapshot, current: CompetitorSnapshot): seq<string> {
    (if baseline.heroText != current.heroText then [HeroShift(baseline, current)] else []) +
    CategoryShifts(CategorizeKeywords(KeywordText(baseline)), CategorizeKeywords(KeywordText(current)))
  }

  /** The four shift messages start with four different letters. */
  lemma ShiftMessagesDiffer(h: string)
    requires HeroShiftOpen <= h
    ensures h[0] == 'H' && AiShift[0] == 'A' && EnterpriseShift[0] == 'M' && SpeedShift[0] == 'D'
  {
    assert HeroShiftOpen[0] == 'H';
  }

  /** Each category shift fires under its own threshold rule, independently of
      the others, no other message appears, and the messages come in the order
      AI, enterprise, speed. */
  lemma CategoryShiftRules(b: KeywordCounts, c: KeywordCounts)
    ensures var r := CategoryShifts(b, c);
      && |r| <= 3
      && (AiShift in r <==> b.ai < 2 && c.ai >= 2)
      && (EnterpriseShift in r <==> b.enterprise < 2 && c.enterprise >= 2)
      && (SpeedShift in r <==> b.speed > c.speed + 1)
      && (forall s :: s in r ==> s == AiShift || s == EnterpriseShift || s == SpeedShift)
      && IsSubsequence(r, [AiShift, EnterpriseShift, SpeedShift])
  {
    ShiftMessagesDiffer(HeroShiftOpen);
    PickedInOrder(AiShift, EnterpriseShift, SpeedShift,
      b.ai < 2 && c.ai >= 2, b.enterprise < 2 && c.enterprise >= 2, b.speed > c.speed + 1);
  }

  /** The hero message comes first exactly when the hero changed, there are at
      most four shifts, each category message is present exactly when its
      rule fires on the keyword counts of the two snapshots, and the category
      messages follow in the order AI, enterprise, speed. */
  lemma ToneShiftRules(baseline: CompetitorSnapshot, current: CompetitorSnapshot)
    ensures var r := ToneShifts(baseline, current);
      var b := CategorizeKeywords(KeywordText(baseline));
      var c := CategorizeKeywords(KeywordText(current));
      && |r| <= 4
      && (baseline.heroText != current.heroText <==> r != [] && r[0] == HeroShift(baseline, current))
      && (AiShift in r <==> b.ai < 2 && c.ai >= 2)
      && (EnterpriseShift in r <==> b.enterprise < 2 && c.enterprise >= 2)
      && (SpeedShift in r <==> b.speed > c.speed + 1)
      && IsSubsequence(if baseline.heroText != current.heroText then r[1..] else r, [AiShift, EnterpriseShift, SpeedShift])
  {
    var b := CategorizeKeywords(KeywordText(baseline));
    var c := CategorizeKeywords(KeywordText(current));
    var h := HeroShift(baseline, current);
    var cs := CategoryShifts(b, c);
    CategoryShiftRules(b, c);
    ShiftMessagesDiffer(h);
    if baseline.heroText != current.heroText {
      assert ToneShifts(baseline, current) == [h] + cs;
      assert ToneShifts(baseline, current)[1..] == cs;
    } else {
      assert ToneShifts(baseline, current) == cs;
      assert cs != [] ==> cs[0] in cs;
    }
  }

  /** The category half of `detectToneShifts`: push each category message
      whose threshold rule fires on the two keyword counts. */
  method PushCategoryShifts(b: KeywordCounts, c: KeywordCounts, before: seq<string>) returns (shifts: seq<string>)
    ensures shifts == before + CategoryShifts(b, c)
  {
    shifts := before;
    if b.ai < 2 && c.ai >= 2 {
      shifts := shifts + [AiShift];
    }
    if b.enterprise < 2 && c.enterprise >= 2 {
      shifts := shifts + [EnterpriseShift];
    }
    if b.speed > c.speed + 1 {
      shifts := shifts + [SpeedShift];
    }
  }

  /** `detectToneShifts`: push the hero message, then each category message
      whose threshold rule fires. */
  method DetectToneShifts(baseline: CompetitorSnapshot, current: CompetitorSnapshot) returns (shifts: seq<string>)
    ensures shifts == ToneShifts(baseline, current)
  {
    shifts := [];
    if baseline.heroText != current.heroText {
      shifts := shifts + [HeroShift(baseline, current)];
    }
    var b := CategorizeKeywords(KeywordText(baseline));
    var c := CategorizeKeywords(KeywordText(current));
    shifts := PushCategoryShifts(b, c, shifts);
  }

  // ---------------------------------------------------------------------------
  // Implications

  const MaxImplications: nat := 5

  const HeroUpdatedOpen: string := "Hero text updated: \""
  const HeroSoWhat: string := "Primary messaging has changed. Review their new positioning."
  const TermsOpen: string := "New product terms added: "
  const TermsSeparator: string := ", "
  const TermsSoWhat: string := "Competitor is introducing new features or capabilities. Investigate what they launched."
  const ShiftSoWhat: string := "Strategic positioning change detected. Monitor their messaging evolution."
  const FallbackText: string := "Minor updates detected in competitor messaging"
  const FallbackSoWhat: string := "Small textual changes - likely routine updates."

  function HeroImplication(current: CompetitorSnapshot): DriftImplication {
    DriftImplication(
      HeroUpdatedOpen + Prefix(current.heroText, 100) + QuoteClose, HeroSoWhat,
      Trust, CTO, Awareness, High)
  }

  function TermsImplication(nouns: seq<string>): DriftImplication {
    DriftImplication(
      TermsOpen + Join(Take(nouns, 5), TermsSeparator), TermsSoWhat,
      Innovation, VPEngineering, Consideration, Medium)
  }

  function ShiftImplication(shift: string): DriftImplication {
    DriftImplication(shift, ShiftSoWhat, Control, ProductManager, Awareness, Medium)
  }

  const FallbackImplication: DriftImplication :=
    DriftImplication(FallbackText, FallbackSoWhat, Trust, CTO, Awareness, Low)

  /** The implications the three rules produce, in rule order, before the
      fallback and the cut to five. */
  function RuleImplications(baseline: CompetitorSnapshot, current: CompetitorSnapshot,
                            nouns: seq<string>, shifts: seq<string>): (r: seq<DriftImplication>)
    ensures forall k :: 0 <= k < |r| ==> r[k].severity != Low
    ensures r == [] <==> baseline.heroText == current.heroText && nouns == [] && shifts == []
  {
    (if baseline.heroText != current.heroText then [HeroImplication(current)] else []) +
    (if |nouns| > 0 then [TermsImplication(nouns)] else []) +
    Map(shifts, ShiftImplication)
  }

  /** What `generateBasicImplications` returns: between one and five entries,
      the hero entry first when the hero changed, and the single low-severity
      fallback exactly when no rule fired. `verbs` is accepted and unused, as
      in the source. */
  function Implications(baseline: CompetitorSnapshot, current: CompetitorSnapshot,
                        nouns: seq<string>, verbs: seq<string>, shifts: seq<string>): (r: seq<DriftImplication>)
    ensures 1 <= |r| <= MaxImplications
    ensures baseline.heroText != current.heroText ==> r[0] == HeroImplication(current) && r[0].severity == High
    ensures r == [FallbackImplication] <==> baseline.heroText == current.heroText && nouns == [] && shifts == []
    ensures (exists k :: 0 <= k < |r| && r[k].severity == Low) <==> r == [FallbackImplication]
  {
    var raw := RuleImplications(baseline, current, nouns, shifts);
    if raw == [] then
      assert [FallbackImplication][0].severity == Low;
      [FallbackImplication]
    else
      var r := Take(raw, MaxImplications);
      assert forall k :: 0 <= k < |r| ==> r[k] == raw[k];
      assert [FallbackImplication][0].severity == Low && r[0].severity != Low;
      assert baseline.heroText != current.heroText ==> raw[0] == HeroImplication(current);
      r
  }

  /** When at most three tone shifts come in, nothing is cut: the hero entry,
      the terms entry and one entry per shift all appear. */
  lemma FewShiftsAreAllKept(baseline: CompetitorSnapshot, current: CompetitorSnapshot,
                            nouns: seq<string>, verbs: seq<string>, shifts: seq<string>)
    requires |shifts| <= 3
    requires baseline.heroText != current.heroText || nouns != [] || shifts != []
    ensures Implications(baseline, current, nouns, verbs, shifts) == RuleImplications(baseline, current, nouns, shifts)
    ensures forall s :: s in shifts ==> ShiftImplication(s) in Implications(baseline, current, nouns, verbs, shifts)
  {
    var r := RuleImplications(baseline, current, nouns, shifts);
    forall s | s in shifts ensures ShiftImplication(s) in r {
      var i :| 0 <= i < |shifts| && shifts[i] == s;
      assert Map(shifts, ShiftImplication)[i] == ShiftImplication(s);
    }
  }

  /** The tone-shift loop of `generateBasicImplications`: one entry per shift,
      in order, after what is already there. */
  method PushShiftImplications(before: seq<DriftImplication>, shifts: seq<string>)
    returns (implications: seq<DriftImplication>)
    ensures implications == before + Map(shifts, ShiftImplication)
  {
    implications := before;
    var i := 0;
    while i < |shifts|
      invariant 0 <= i <= |shifts|
      invariant implications == before + Map(shifts[..i], ShiftImplication)
    {
      assert Map(shifts[..i + 1], ShiftImplication) == Map(shifts[..i], ShiftImplication) + [ShiftImplication(shifts[i])];
      implications := implications + [ShiftImplication(shifts[i])];
      i := i + 1;
    }
    assert shifts[..i] == shifts;
  }

  /** `generateBasicImplications`: push by rule, one entry per tone shift, add
      the fallback if nothing was pushed, keep the first five. */
  method GenerateBasicImplications(baseline: CompetitorSnapshot, current: CompetitorSnapshot,
                                   nouns: seq<string>, verbs: seq<string>, shifts: seq<string>)
    returns (implications: seq<DriftImplication>)
    ensures implications == Implications(baseline, current, nouns, verbs, shifts)
  {
    implications := [];
    if baseline.heroText != current.heroText {
      implications := implications + [HeroImplication(current)];
    }
    if |nouns| > 0 {
      implications := implications + [TermsImplication(nouns)];
    }
    implications := PushShiftImplications(implications, shifts);
    if |implications| == 0 {
      implications := implications + [FallbackImplication];
    }
    implications := Take(implications, MaxImplications);
  }

  // ---------------------------------------------------------------------------
  // The analysis

  const TrajectoryText: string := "Significant language drift detected"
  const TrajectoryThreshold: nat := 30

  /** `analyzeDrift`, with the id and the analysis date as parameters: the
      first ten noun-like and verb-like words new since the baseline, the
      score, tone shifts and implications of the two snapshots, and the
      trajectory call once the score reaches the threshold. */
  function AnalyzeDrift(baseline: CompetitorSnapshot, current: CompetitorSnapshot, id: string, now: Date): (a: DriftAnalysis)
    ensures a.id == id && a.analyzedAt == now
    ensures a.competitorUrl == current.competitorUrl && a.competitorName == current.competitorName
    ensures a.driftScore <= 100
    ensures a.trajectoryCall.Some? <==> a.driftScore >= TrajectoryThreshold
    ensures |a.newNouns| <= 10 && |a.newVerbs| <= 10
    ensures |a.toneShifts| <= 4
    ensures 1 <= |a.implications| <= MaxImplications
    ensures forall w :: w in a.newNouns ==>
      IsNounLike(w) && w in ExtractWords(SnapshotTexts(current)) && w !in ExtractWords(SnapshotTexts(baseline))
    ensures forall w :: w in a.newVerbs ==>
      IsVerbLike(w) && w in ExtractWords(SnapshotTexts(current)) && w !in ExtractWords(SnapshotTexts(baseline))
    ensures var cw, bw := ExtractWords(SnapshotTexts(current)), ExtractWords(SnapshotTexts(baseline));
      var nw := NewWords(cw, bw);
      && a.newNouns == Take(NounLike(nw), 10) && a.newVerbs == Take(VerbLike(nw), 10)
      && a.driftScore == DriftScore(baseline, current, |nw|)
      && a.toneShifts == ToneShifts(baseline, current)
      && a.implications == Implications(baseline, current, NounLike(nw), VerbLike(nw), a.toneShifts)
  {
    ToneShiftsAtMostFour(baseline, current);
    var baselineWords := ExtractWords(SnapshotTexts(baseline));
    var currentWords := ExtractWords(SnapshotTexts(current));
    FirstTenNewTerms(currentWords, baselineWords);
    var newWords := NewWords(currentWords, baselineWords);
    var nouns := NounLike(newWords);
    var verbs := VerbLike(newWords);
    var shifts := ToneShifts(baseline, current);
    var score := DriftScore(baseline, current, |newWords|);
    var implications := Implications(baseline, current, nouns, verbs, shifts);
    DriftAnalysis(
      id, current.competitorUrl, current.competitorName, now, score,
      Take(nouns, 10), Take(verbs, 10), shifts, implications,
      if score >= TrajectoryThreshold then Some(TrajectoryText) else None)
  }

  /** The first ten noun-like (verb-like) new words: each is noun-like
      (verb-like), in the current words and not in the baseline's; and when
      there are at most ten, every such word is among them. */
  lemma FirstTenNewTerms(current: seq<string>, baseline: seq<string>)
    ensures var nouns := Take(NounLike(NewWords(current, baseline)), 10);
      && (forall w :: w in nouns ==> IsNounLike(w) && w in current && w !in baseline)
      && (|NounLike(NewWords(current, baseline))| <= 10 ==>
            forall w :: w in current && w !in baseline && IsNounLike(w) ==> w in nouns)
    ensures var verbs := Take(VerbLike(NewWords(current, baseline)), 10);
      && (forall w :: w in verbs ==> IsVerbLike(w) && w in current && w !in baseline)
      && (|VerbLike(NewWords(current, baseline))| <= 10 ==>
            forall w :: w in current && w !in baseline && IsVerbLike(w) ==> w in verbs)
  {
  }

  /** There are at most four tone shifts. */
  lemma ToneShiftsAtMostFour(baseline: CompetitorSnapshot, current: CompetitorSnapshot)
    ensures |ToneShifts(baseline, current)| <= 4
  {
    ToneShiftRules(baseline, current);
  }

  /** Snapshots equal in hero, subheads and pricing: score 0, no trajectory
      call, no tone shift, no new term, and only the fallback implication. */
  lemma IdenticalSnapshotsHaveNoDrift(baseline: CompetitorSnapshot, current: CompetitorSnapshot, id: string, now: Date)
    requires baseline.heroText == current.heroText
    requires baseline.subheads == current.subheads && baseline.pricingBlocks == current.pricingBlocks
    ensures var a := AnalyzeDrift(baseline, current, id, now);
      && a.driftScore == 0
      && a.trajectoryCall == None
      && a.toneShifts == []
      && a.newNouns == [] && a.newVerbs == []
      && a.implications == [FallbackImplication]
  {
    NoNewWordsInSameTexts(baseline, current);
    NoToneShiftsInSameTexts(baseline, current);
    NothingNewFallsBack(baseline, current);
    var a := AnalyzeDrift(baseline, current, id, now);
    assert a.newNouns == Take(NounLike([]), 10) && a.newVerbs == Take(VerbLike([]), 10);
  }

  /** With no new word and no tone shift, two snapshots equal in hero,
      subheads and pricing score 0 and get only the fallback implication. */
  lemma NothingNewFallsBack(baseline: CompetitorSnapshot, current: CompetitorSnapshot)
    requires baseline.heroText == current.heroText
    requires baseline.subheads == current.subheads && baseline.pricingBlocks == current.pricingBlocks
    ensures NounLike([]) == [] && VerbLike([]) == []
    ensures DriftScore(baseline, current, 0) == 0
    ensures Implications(baseline, current, [], [], []) == [FallbackImplication]
  {
    assert NounLike([]) == [];
  }

  /** Equal texts have no word that is new. */
  lemma NoNewWordsInSameTexts(baseline: CompetitorSnapshot, current: CompetitorSnapshot)
    requires baseline.heroText == current.heroText
    requires baseline.subheads == current.subheads && baseline.pricingBlocks == current.pricingBlocks
    ensures NewWords(ExtractWords(SnapshotTexts(current)), ExtractWords(SnapshotTexts(baseline))) == []
  {
    assert SnapshotTexts(baseline) == SnapshotTexts(current);
    NoNewWordsAgainstItself(ExtractWords(SnapshotTexts(current)));
  }

  /** Equal texts have no tone shift. */
  lemma NoToneShiftsInSameTexts(baseline: CompetitorSnapshot, current: CompetitorSnapshot)
    requires baseline.heroText == current.heroText
    requires baseline.subheads == current.subheads && baseline.pricingBlocks == current.pricingBlocks
    ensures ToneShifts(baseline, current) == []
  {
    assert KeywordText(baseline) == KeywordText(current);
    var k := CategorizeKeywords(KeywordText(current));
    assert CategoryShifts(k, k) == [];
    assert ToneShifts(baseline, current) == CategoryShifts(k, k);
  }

  /** A changed hero always yields a score of at least 30 (hence a trajectory
      call) and puts the high-severity Trust/CTO/Awareness entry first. */
  lemma HeroChangeIsMaterial(baseline: CompetitorSnapshot, current: CompetitorSnapshot, id: string, now: Date)
    requires baseline.heroText != current.heroText
    ensures var a := AnalyzeDrift(baseline, current, id, now);
      && a.driftScore >= 30
      && a.trajectoryCall == Some(TrajectoryText)
      && a.implications[0] == HeroImplication(current)
      && a.implications[0].severity == High
      && a.implications[0].narrativeTag == Trust
      && a.implications[0].persona == CTO
      && a.implications[0].stage == Awareness
  {
  }

  // ---------------------------------------------------------------------------
  // Action items: no claim without proof

  /** The marker the e-mail shows for unproven counter-moves. */
  const SafetyMarker: string := "INSUFFICIENT DATA"

  /** The safety-stop text, kept exactly as the source spells it (the dash is
      stored as three mis-decoded characters). */
  const SafetyStopRest: string := "\U{201A}\U{00C4}\U{00EE}PROOF NEEDED] Add proof to vault to validate this counter-move"
  const InsufficientDataStep: string := "[" + SafetyMarker + SafetyStopRest
  const ReviewStep: string := "Review proof and decide on counter-messaging strategy"

  /** The text of each next step. */
  function NextStepText(n: NextStep): string {
    match n
    case ReviewProof => ReviewStep
    case ProofNeeded => InsufficientDataStep
  }

  /** The safety-stop text carries the marker right after its opening bracket,
      and the two next steps read differently. */
  lemma SafetyStopCarriesMarker()
    ensures NextStepText(ProofNeeded)[1..1 + |SafetyMarker|] == SafetyMarker
    ensures NextStepText(ProofNeeded) != NextStepText(ReviewProof)
  {
    assert |SafetyMarker| == 17 && |SafetyStopRest| == 65 && |ReviewStep| == 53;
  }

  /** The action item for one implication given the proofs the search
      returned: VALIDATED with the first proof's id when there is one,
      otherwise INSUFFICIENT_DATA, no proof id and the safety-stop text. */
  function ActionFor(imp: DriftImplication, proofs: seq<ProofRecord>): (a: ActionItem)
    ensures a.line == imp.text
    ensures a.narrativeTag == imp.narrativeTag && a.persona == imp.persona && a.stage == imp.stage
    ensures a.status == Validated <==> a.proofId.Some?
    ensures a.nextStep == ProofNeeded <==> a.status == InsufficientData
  {
    var status := if |proofs| > 0 then Validated else InsufficientData;
    var proofId := if |proofs| > 0 then Some(proofs[0].proofId) else None;
    ActionItem(
      imp.text, proofId,
      if status == InsufficientData then ProofNeeded else ReviewProof,
      imp.narrativeTag, imp.persona, imp.stage, status)
  }

  /** The proofs the search of `generateActionItems` finds for one
      implication: those carrying its three tags, in vault order. */
  function ProofsFor(imp: DriftImplication, vault: seq<ProofRecord>): seq<ProofRecord> {
    ExactMatches(vault, imp.narrativeTag, imp.persona, imp.stage)
  }

  /** The item `generateActionItems` builds for one implication: its own
      search, then the gate. */
  function ItemFor(vault: seq<ProofRecord>, imp: DriftImplication): ActionItem {
    ActionFor(imp, ProofsFor(imp, vault))
  }

  /** What `generateActionItems` returns, one item per implication, in order. */
  function ActionItems(implications: seq<DriftImplication>, vault: seq<ProofRecord>): (r: seq<ActionItem>)
    ensures |r| == |implications|
    ensures forall k :: 0 <= k < |r| ==>
      && r[k].line == implications[k].text
      && r[k].narrativeTag == implications[k].narrativeTag
      && r[k].persona == implications[k].persona
      && r[k].stage == implications[k].stage
  {
    Map(implications, (imp: DriftImplication) => ItemFor(vault, imp))
  }

  /** The safety gate over a whole list: an item is VALIDATED exactly when the
      vault holds a proof with all three of its implication's tags, exactly
      when it carries a proof id, and that id is the first such proof's. */
  lemma NoClaimWithoutProof(implications: seq<DriftImplication>, vault: seq<ProofRecord>, k: nat)
    requires k < |implications|
    ensures var item := ActionItems(implications, vault)[k];
      var imp := implications[k];
      var matches := ExactMatches(vault, imp.narrativeTag, imp.persona, imp.stage);
      && item.line == imp.text
      && (item.status == Validated <==> exists p :: p in vault && HasTags(p, imp.narrativeTag, imp.persona, imp.stage))
      && (item.status == Validated <==> item.proofId.Some?)
      && (item.proofId.Some? ==> matches != [] && item.proofId.value == matches[0].proofId)
      && (item.nextStep == ProofNeeded <==> item.status == InsufficientData)
  {
    var imp := implications[k];
    assert ActionItems(implications, vault)[k] == ItemFor(vault, imp);
    var matches := ProofsFor(imp, vault);
    NoMatchIffNoTaggedProof(vault, imp.narrativeTag, imp.persona, imp.stage);
    if matches != [] {
      assert matches[0] in matches;
    }
  }

  /** An implication with no matching proof gets INSUFFICIENT_DATA, no proof id
      and a next step carrying the marker text. */
  lemma UnprovenImplicationIsInsufficient(imp: DriftImplication, vault: seq<ProofRecord>)
    requires forall p :: p in vault ==> !HasTags(p, imp.narrativeTag, imp.persona, imp.stage)
    ensures var a := ActionFor(imp, ProofsFor(imp, vault));
      && a.status == InsufficientData
      && a.proofId == None
      && NextStepText(a.nextStep)[1..1 + |SafetyMarker|] == SafetyMarker
  {
    NoMatchIffNoTaggedProof(vault, imp.narrativeTag, imp.persona, imp.stage);
    SafetyStopCarriesMarker();
  }

  /** The awaited `searchProofRecords` call with an implication's three tag
      names, over the list of all proofs. */
  method SearchTagged(vault: seq<ProofRecord>, imp: DriftImplication) returns (proofs: seq<ProofRecord>)
    ensures proofs == ProofsFor(imp, vault)
  {
    proofs := MatchingProofs(vault, TagCriteria(imp.narrativeTag, imp.persona, imp.stage));
    TagSearchIsExactMatch(vault, imp.narrativeTag, imp.persona, imp.stage);
  }

  /** `generateActionItems`: for each implication in turn, search the vault
      with its three tags and push the item built from what was found. */
  method GenerateActionItems(implications: seq<DriftImplication>, vault: seq<ProofRecord>)
    returns (items: seq<ActionItem>)
    ensures items == ActionItems(implications, vault)
  {
    items := [];
    for i := 0 to |implications|
      invariant items == ActionItems(implications[..i], vault)
    {
      var imp := implications[i];
      var proofs := SearchTagged(vault, imp);
      assert ActionItems(implications[..i + 1], vault) == ActionItems(implications[..i], vault) + [ItemFor(vault, imp)];
      items := items + [ActionFor(imp, proofs)];
    }
    assert implications[..|implications|] == implications;
  }

  // ---------------------------------------------------------------------------
  // Market pulse e-mail: subject line and status partition

  predicate IsHighDrift(d: DriftAnalysis) { d.driftScore >= TrajectoryThreshold }
  predicate IsValidatedAction(a: ActionItem) { a.status == Validated }
  predicate IsUnvalidatedAction(a: ActionItem) { a.status == InsufficientData }
  predicate IsHighOrMedium(i: DriftImplication) { i.severity == High || i.severity == Medium }

  function ImplicationsOf(d: DriftAnalysis): seq<DriftImplication> { d.implications }

  function HighDriftAnalyses(analyses: seq<DriftAnalysis>): seq<DriftAnalysis> {
    Filter(analyses, IsHighDrift)
  }

  /** `analyses.flatMap(d => d.implications)`: every analysis's
      implications, analysis after analysis. */
  function AllImplications(analyses: seq<DriftAnalysis>): seq<DriftImplication> {
    Flatten(Map(analyses, ImplicationsOf))
  }

  /** The high- or medium-severity implications across the analyses: an
      implication is one exactly when some analysis lists it and its severity
      is high or medium; they keep the order of the flattened list and every
      repetition in it, and the others are dropped. */
  function KeyChanges(analyses: seq<DriftAnalysis>): (r: seq<DriftImplication>)
    ensures forall i :: i in r <==>
      IsHighOrMedium(i) && exists k :: 0 <= k < |analyses| && i in analyses[k].implications
    ensures IsSubsequence(r, AllImplications(analyses))
    ensures forall i :: multiset(r)[i] == if IsHighOrMedium(i) then multiset(AllImplications(analyses))[i] else 0
  {
    var all := AllImplications(analyses);
    forall i ensures i in all <==> exists k :: 0 <= k < |analyses| && i in analyses[k].implications {
      FlattenMember(Map(analyses, ImplicationsOf), i);
    }
    FilterIsSubsequence(all, IsHighOrMedium);
    FilterMultiset(all, IsHighOrMedium);
    Filter(all, IsHighOrMedium)
  }

  /** The e-mail's key changes: the first five high- or medium-severity
      implications across the analyses, in order; all of them when there are
      at most five. */
  function TopImplications(analyses: seq<DriftAnalysis>): (r: seq<DriftImplication>)
    ensures |r| <= 5
    ensures forall i :: i in r ==> IsHighOrMedium(i)
    ensures r <= KeyChanges(analyses) && |r| == Min(5, |KeyChanges(analyses)|)
    ensures forall i :: i in r ==> exists k :: 0 <= k < |analyses| && i in analyses[k].implications
    ensures |KeyChanges(analyses)| <= 5 ==>
      forall k, i :: 0 <= k < |analyses| && i in analyses[k].implications && IsHighOrMedium(i) ==> i in r
  {
    Take(KeyChanges(analyses), 5)
  }

  function ValidatedActions(actions: seq<ActionItem>): seq<ActionItem> {
    Filter(actions, IsValidatedAction)
  }

  function UnvalidatedActions(actions: seq<ActionItem>): seq<ActionItem> {
    Filter(actions, IsUnvalidatedAction)
  }

  /** Every action item lands in exactly one of the two e-mail sections. */
  lemma StatusPartition(actions: seq<ActionItem>)
    ensures multiset(ValidatedActions(actions)) + multiset(UnvalidatedActions(actions)) == multiset(actions)
    ensures |ValidatedActions(actions)| + |UnvalidatedActions(actions)| == |actions|
    ensures forall a :: a in ValidatedActions(actions) ==> a !in UnvalidatedActions(actions)
  {
    var v, u := ValidatedActions(actions), UnvalidatedActions(actions);
    FilterMultiset(actions, IsValidatedAction);
    FilterMultiset(actions, IsUnvalidatedAction);
    forall a ensures (multiset(v) + multiset(u))[a] == multiset(actions)[a] {
    }
    assert multiset(v) + multiset(u) == multiset(actions);
    assert |multiset(v) + multiset(u)| == |multiset(actions)|;
  }

  const SubjectOpen: string := "Market Pulse: "
  const SubjectNoun: string := " Competitor Change"
  const SubjectClose: string := " Detected"

  /** `Market Pulse: N Competitor Change(s) Detected` for a count `n`. */
  function Subject(n: nat): string {
    SubjectOpen + Decimal(n) + SubjectNoun + (if n != 1 then "s" else "") + SubjectClose
  }

  /** The e-mail's subject, counting the analyses with high drift. */
  function EmailSubject(analyses: seq<DriftAnalysis>): string {
    Subject(|HighDriftAnalyses(analyses)|)
  }

  /** The subject names the count right after its opening words. */
  lemma SubjectNamesCount(n: nat)
    ensures StartsWith(Subject(n), SubjectOpen)
    ensures Subject(n)[|SubjectOpen|..|SubjectOpen| + |Decimal(n)|] == Decimal(n)
  {
    var rest := SubjectNoun + (if n != 1 then "s" else "") + SubjectClose;
    assert Subject(n) == SubjectOpen + (Decimal(n) + rest);
    assert (Decimal(n) + rest)[..|Decimal(n)|] == Decimal(n);
  }

  /** The subject reads "Changes" (ends in `s Detected`) exactly when the
      count is not one. */
  lemma SubjectPluralisation(n: nat)
    ensures EndsWith(Subject(n), "s" + SubjectClose) <==> n != 1
  {
    var s := Subject(n);
    var head := SubjectOpen + Decimal(n) + SubjectNoun;
    var tail := "s" + SubjectClose;
    if n != 1 {
      assert s == head + tail;
      assert s[|s| - |tail|..] == tail;
    } else {
      assert s == head + SubjectClose;
      assert SubjectNoun[|SubjectNoun| - 1] == 'e';
      assert s[|s| - |tail|] == head[|head| - 1] == 'e';
    }
  }
}
