/** `ScripturalWisdom` (app/ark_engine/rasta_principles/jah_core.py): a fixed
    corpus of maxims grouped by book, each with an optional coding
    application, and the relevance matcher that picks the three maxims that
    best match the keywords of a situation. */
module Scripture {
  import opened Text
  import opened StableSort

  datatype Book = Book(name: string, maxims: seq<string>)

  /** `wisdom_database`, in its insertion order. */
  const Corpus: seq<Book> := [
    Book("Psalms", [
      "The Earth is Jah's and the fullness thereof",
      "Blessed is the man that walketh not in the counsel of the ungodly",
      "He that dwelleth in the secret place of the most High",
      "The Lord is my shepherd; I shall not want",
      "Create in me a clean heart, O God"]),
    Book("Proverbs", [
      "The fear of the Lord is the beginning of wisdom",
      "Trust in the Lord with all thine heart",
      "Wisdom is the principal thing; therefore get wisdom",
      "A soft answer turneth away wrath",
      "Where there is no vision, the people perish"]),
    Book("Ecclesiastes", [
      "To every thing there is a season",
      "Vanity of vanities, saith the Preacher",
      "The sun also ariseth, and the sun goeth down",
      "Two are better than one",
      "Remember now thy Creator in the days of thy youth"]),
    Book("Isaiah", [
      "They that wait upon the Lord shall renew their strength",
      "The wolf also shall dwell with the lamb",
      "How beautiful upon the mountains are the feet of him",
      "For my thoughts are not your thoughts",
      "Comfort ye, comfort ye my people"]),
    Book("Rasta_Wisdom", [
      "Jah live inna I and I",
      "Love and unity is the key",
      "Give thanks and praise to the Most High",
      "Inity, not vanity",
      "Overstand, don't just understand",
      "Livity is the way of life",
      "Ital is vital",
      "No hurt, no harm in the heart",
      "Peace and love within the community",
      "Respect for all of Jah creation"])
  ]

  /** `coding_application`. */
  const Applications: map<string, string> := map[
    "The Earth is Jah's and the fullness thereof" :=
      "Code should respect natural systems and environmental impact",
    "The fear of the Lord is the beginning of wisdom" :=
      "Humility before complexity brings true understanding",
    "To every thing there is a season" :=
      "Choose the right technology for the right time",
    "They that wait upon the Lord shall renew their strength" :=
      "Patience in debugging leads to better solutions",
    "Jah live inna I and I" := "Divine wisdom exists within every programmer",
    "Love and unity is the key" := "Collaborative coding creates better systems",
    "Overstand, don't just understand" := "Deep comprehension beyond surface knowledge",
    "Ital is vital" := "Clean, natural code is essential for health",
    "No hurt, no harm in the heart" := "Code should not cause harm to users",
    "Respect for all of Jah creation" := "Inclusive design for all people"
  ]

  const DefaultApplication := "Apply divine wisdom"
  const SituationBlessing := "Jah guide your coding journey with wisdom and understanding"
  const SituationMeditation := "Consider how this wisdom applies to your code and life"

  /** One entry of the `guidance` list. */
  datatype Guidance = Guidance(wisdom: string, book: string, application: string, relevance: real)

  /** The dictionary `get_wisdom_for_situation` returns. */
  datatype WisdomReport = WisdomReport(
    situation: string, guidance: seq<Guidance>, blessing: string, meditation: string)

  /** `situation.lower().split()`. */
  function Keywords(situation: string): seq<string> {
    Words(ToLower(situation))
  }

  /** `_calculate_relevance`: the fraction of the keywords found in the lower-cased maxim. */
  function Relevance(wisdom: string, keywords: seq<string>): (r: real)
    ensures 0.0 <= r <= 1.0
    ensures keywords == [] ==> r == 0.0
    ensures r > 0.0 <==> ContainsAny(ToLower(wisdom), keywords)
    ensures r == 1.0 <==>
              keywords != [] && forall i :: 0 <= i < |keywords| ==> Contains(ToLower(wisdom), keywords[i])
  {
    if keywords == [] then 0.0
    else
      var n, k := CountMatches(ToLower(wisdom), keywords) as real, |keywords| as real;
      FractionAtMostOne(n, k);
      n / k
  }

  lemma FractionAtMostOne(n: real, k: real)
    requires 0.0 <= n <= k && k > 0.0
    ensures 0.0 <= n / k <= 1.0
    ensures n / k > 0.0 <==> n > 0.0
    ensures n / k == 1.0 <==> n == k
  {
    var q := n / k;
    assert q * k == n;
    assert (1.0 - q) * k == k - n;
  }

  /** `coding_application.get(wisdom, "Apply divine wisdom")`. */
  function ApplicationOf(apps: map<string, string>, wisdom: string): string {
    if wisdom in apps then apps[wisdom] else DefaultApplication
  }

  function Entry(apps: map<string, string>, book: string, wisdom: string, keywords: seq<string>): Guidance {
    Guidance(wisdom, book, ApplicationOf(apps, wisdom), Relevance(wisdom, keywords))
  }

  /** The entries the inner loop appends for the maxims of one book. */
  function MaximCandidates(apps: map<string, string>, book: string, maxims: seq<string>, keywords: seq<string>): seq<Guidance> {
    if maxims == [] then []
    else
      var w := maxims[|maxims| - 1];
      MaximCandidates(apps, book, maxims[..|maxims| - 1], keywords)
        + (if ContainsAny(ToLower(w), keywords) then [Entry(apps, book, w, keywords)] else [])
  }

  /** The unsorted `relevant` list: every maxim that mentions a keyword, in corpus order. */
  function CorpusCandidates(books: seq<Book>, apps: map<string, string>, keywords: seq<string>): seq<Guidance> {
    if books == [] then []
    else
      var b := books[|books| - 1];
      CorpusCandidates(books[..|books| - 1], apps, keywords) + MaximCandidates(apps, b.name, b.maxims, keywords)
  }

  /** The sort key of `relevant.sort(key=lambda x: x["relevance_score"], reverse=True)`. */
  function AtLeastAsRelevant(a: Guidance, b: Guidance): bool {
    a.relevance >= b.relevance
  }

  lemma RelevanceIsTotalPreorder()
    ensures TotalPreorder(AtLeastAsRelevant)
  {
  }

  /** The candidates after the stable descending sort. */
  function Ranked(books: seq<Book>, apps: map<string, string>, keywords: seq<string>): seq<Guidance> {
    RelevanceIsTotalPreorder();
    SortDesc(CorpusCandidates(books, apps, keywords), AtLeastAsRelevant)
  }

  /** What `get_wisdom_for_situation(situation)` returns for a wisdom database
      `books` and a coding-application table `apps`. */
  function WisdomFor(books: seq<Book>, apps: map<string, string>, situation: string): WisdomReport {
    WisdomReport(situation, Take(Ranked(books, apps, Keywords(situation)), 3), SituationBlessing, SituationMeditation)
  }

  /** The `ScripturalWisdom` object: its database and application table are set
      once by the constructor and only read afterwards. */
  class ScripturalWisdom {
    const wisdomDatabase: seq<Book>
    const codingApplication: map<string, string>

    constructor()
      ensures wisdomDatabase == Corpus && codingApplication == Applications
    {
      wisdomDatabase := Corpus;
      codingApplication := Applications;
    }

    /** `get_wisdom_for_situation`: collect the matching maxims book by book, sort, keep three. */
    method GetWisdomForSituation(situation: string) returns (report: WisdomReport)
      ensures report == WisdomFor(wisdomDatabase, codingApplication, situation)
    {
      var keywords := Keywords(situation);
      var relevant: seq<Guidance> := [];
      var b := 0;
      while b < |wisdomDatabase|
        invariant 0 <= b <= |wisdomDatabase|
        invariant relevant == CorpusCandidates(wisdomDatabase[..b], codingApplication, keywords)
      {
        var book := wisdomDatabase[b];
        var m := 0;
        while m < |book.maxims|
          invariant 0 <= m <= |book.maxims|
          invariant relevant == CorpusCandidates(wisdomDatabase[..b], codingApplication, keywords)
                                + MaximCandidates(codingApplication, book.name, book.maxims[..m], keywords)
        {
          var wisdom := book.maxims[m];
          if ContainsAny(ToLower(wisdom), keywords) {
            relevant := relevant + [Entry(codingApplication, book.name, wisdom, keywords)];
          }
          assert book.maxims[..m + 1][..m] == book.maxims[..m];
          m := m + 1;
        }
        assert book.maxims[..m] == book.maxims;
        assert wisdomDatabase[..b + 1][..b] == wisdomDatabase[..b];
        b := b + 1;
      }
      assert wisdomDatabase[..b] == wisdomDatabase;
      RelevanceIsTotalPreorder();
      relevant := SortDesc(relevant, AtLeastAsRelevant);
      report := WisdomReport(situation, Take(relevant, 3), SituationBlessing, SituationMeditation);
    }
  }

  /** Every entry of one book's candidates comes from that book and mentions a keyword. */
  lemma {:induction false} MaximCandidatesMatch(apps: map<string, string>, book: string, maxims: seq<string>, keywords: seq<string>)
    ensures forall g :: g in MaximCandidates(apps, book, maxims, keywords) ==>
              && g.book == book && g.wisdom in maxims
              && ContainsAny(ToLower(g.wisdom), keywords)
              && g.application == ApplicationOf(apps, g.wisdom)
              && g.relevance == Relevance(g.wisdom, keywords)
  {
    if maxims != [] {
      MaximCandidatesMatch(apps, book, maxims[..|maxims| - 1], keywords);
    }
  }

  /** A corpus candidate is a maxim of one of the books and mentions a keyword. */
  lemma {:induction false} CandidatesMatch(books: seq<Book>, apps: map<string, string>, keywords: seq<string>)
    ensures forall g :: g in CorpusCandidates(books, apps, keywords) ==>
              && (exists b :: b in books && b.name == g.book && g.wisdom in b.maxims)
              && ContainsAny(ToLower(g.wisdom), keywords)
              && g.application == ApplicationOf(apps, g.wisdom)
              && g.relevance == Relevance(g.wisdom, keywords)
  {
    if books != [] {
      var last := books[|books| - 1];
      CandidatesMatch(books[..|books| - 1], apps, keywords);
      MaximCandidatesMatch(apps, last.name, last.maxims, keywords);
      assert last in books;
    }
  }

  /** Without keywords no maxim qualifies. */
  lemma {:induction false} NoKeywordsNoCandidates(books: seq<Book>, apps: map<string, string>)
    ensures CorpusCandidates(books, apps, []) == []
  {
    if books != [] {
      NoKeywordsNoCandidates(books[..|books| - 1], apps);
      NoKeywordsNoMaxims(apps, books[|books| - 1].name, books[|books| - 1].maxims);
    }
  }

  lemma {:induction false} NoKeywordsNoMaxims(apps: map<string, string>, book: string, maxims: seq<string>)
    ensures MaximCandidates(apps, book, maxims, []) == []
  {
    if maxims != [] {
      NoKeywordsNoMaxims(apps, book, maxims[..|maxims| - 1]);
    }
  }

  /** Every returned entry is a maxim of its book that mentions some keyword (so it
      scores above zero and at most one), with the table's application or the default. */
  lemma GuidanceEntriesMatch(books: seq<Book>, apps: map<string, string>, situation: string)
    ensures forall g :: g in WisdomFor(books, apps, situation).guidance ==>
              && (exists b :: b in books && b.name == g.book && g.wisdom in b.maxims)
              && ContainsAny(ToLower(g.wisdom), Keywords(situation))
              && 0.0 < g.relevance <= 1.0
              && g.application == (if g.wisdom in apps then apps[g.wisdom] else "Apply divine wisdom")
  {
    var keywords := Keywords(situation);
    CandidatesMatch(books, apps, keywords);
    var ranked := Ranked(books, apps, keywords);
    forall g | g in WisdomFor(books, apps, situation).guidance
      ensures g in CorpusCandidates(books, apps, keywords)
    {
      assert g in ranked;
      assert g in multiset(ranked);
    }
  }

  /** The three most relevant candidates, in non-increasing order of relevance:
      as many entries as candidates up to three, each a candidate, and no
      candidate left out is more relevant than the last entry kept. */
  lemma GuidanceIsTopThree(books: seq<Book>, apps: map<string, string>, situation: string)
    ensures var g := WisdomFor(books, apps, situation).guidance;
            var cands := CorpusCandidates(books, apps, Keywords(situation));
            && |g| == (if |cands| <= 3 then |cands| else 3)
            && (forall i, j :: 0 <= i < j < |g| ==> g[i].relevance >= g[j].relevance)
            && multiset(g) <= multiset(cands)
            && forall c :: c in multiset(cands) - multiset(g) ==> c.relevance <= g[|g| - 1].relevance
  {
    var cands := CorpusCandidates(books, apps, Keywords(situation));
    var ranked := Ranked(books, apps, Keywords(situation));
    var g := WisdomFor(books, apps, situation).guidance;
    assert g == Take(ranked, 3);
    forall i, j | 0 <= i < j < |g| ensures g[i].relevance >= g[j].relevance {
      assert AtLeastAsRelevant(ranked[i], ranked[j]);
    }
    TakeSortedIsTop(ranked, 3, AtLeastAsRelevant);
    assert multiset(ranked) == multiset(cands);
  }

  /** Entries of equal relevance keep corpus order (book order, then list order):
      among the entries sharing the relevance of any `z`, the returned ones are
      the first of them in corpus order. */
  lemma TiesKeepCorpusOrder(books: seq<Book>, apps: map<string, string>, situation: string, z: Guidance)
    ensures var kept := Tied(WisdomFor(books, apps, situation).guidance, z, AtLeastAsRelevant);
            var all := Tied(CorpusCandidates(books, apps, Keywords(situation)), z, AtLeastAsRelevant);
            |kept| <= |all| && kept == all[..|kept|]
  {
    var ranked := Ranked(books, apps, Keywords(situation));
    var g := WisdomFor(books, apps, situation).guidance;
    TiedPrefix(ranked, |g|, z, AtLeastAsRelevant);
    assert ranked[..|g|] == g;
  }

  /** An empty or whitespace-only situation has no keywords, so no maxim passes the filter. */
  lemma BlankSituationGivesNoGuidance(books: seq<Book>, apps: map<string, string>, situation: string)
    requires AllSpace(situation)
    ensures WisdomFor(books, apps, situation).guidance == []
  {
    LowerKeepsSpaces(situation);
    NoWordsIffBlank(ToLower(situation), "");
    NoKeywordsNoCandidates(books, apps);
  }

  /** Conversely, guidance is empty exactly when no maxim mentions a keyword. */
  lemma GuidanceEmptyIffNoMatch(books: seq<Book>, apps: map<string, string>, situation: string)
    ensures (WisdomFor(books, apps, situation).guidance == [])
        <==> (CorpusCandidates(books, apps, Keywords(situation)) == [])
  {
  }
}
