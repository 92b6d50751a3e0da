/**
 * The heuristic ATS (applicant tracking system) scorer of the API service: it looks for five
 * standard CV sections by keyword, gives up to 60 points for the sections it finds and 40 points
 * when the extracted text is long enough to be machine-readable, and summarises the score.
 * The PDF text extraction is not modelled: the analyzer is built from the extracted text.
 */
module AtsChecker {
  import opened PyStrings

  /** The section table: each section name with its keywords, in the dict's insertion order. */
  const SectionKeywords: seq<(string, seq<string>)> := [
    ("Experiencia Laboral", ["experiencia", "experience", "work history", "employment"]),
    ("Educación", ["educación", "education", "formación", "academic", "university", "universidad"]),
    ("Habilidades/Skills", ["habilidades", "skills", "competencias", "technologies", "tecnologías"]),
    ("Resumen/Perfil", ["perfil", "profile", "resumen", "summary", "about me", "sobre mí"]),
    ("Contacto", ["contacto", "contact", "email", "teléfono", "phone"])
  ]

  /** The number of sections looked for: `len(section_keywords)`. */
  const TotalSections: nat := |SectionKeywords|
  /** The share of the score earned by the sections. */
  const SectionWeight: nat := 60
  /** The points for readable text and the length the text must exceed to earn them. */
  const ReadablePoints: nat := 40
  const ReadableLength: nat := 100

  const Excellent := "Excelente compatibilidad ATS. Estructura clara."
  const GoodStart := "Buen inicio, pero faltan secciones clave o contenido legible."
  const LowCompatibility := "Baja compatibilidad. Asegúrate de usar texto seleccionable, no imágenes."

  /** The result dictionary of `analyze`. */
  datatype Report = Report(score: int, sectionsFound: seq<string>, textLength: nat, summary: string)

  /** A section counts as present when one of its keywords occurs in the lower-cased text. */
  predicate SectionPresent(textLower: string, keywords: seq<string>)
  {
    exists k :: 0 <= k < |keywords| && Contains(textLower, keywords[k])
  }

  /** The names of the table's sections that are present, in table order. */
  function Found(textLower: string, table: seq<(string, seq<string>)>): (r: seq<string>)
    ensures |r| <= |table|
  {
    if table == [] then []
    else (if SectionPresent(textLower, table[0].1) then [table[0].0] else []) + Found(textLower, table[1..])
  }

  /** The section names of a table, in order. */
  function Names(table: seq<(string, seq<string>)>): (r: seq<string>)
    ensures |r| == |table| && forall i :: 0 <= i < |table| ==> r[i] == table[i].0
  {
    if table == [] then [] else [table[0].0] + Names(table[1..])
  }

  predicate Distinct(names: seq<string>)
  {
    forall i, j :: 0 <= i < j < |names| ==> names[i] != names[j]
  }

  /** The position of the first section called `name`, or the table's length when there is none. */
  function NameIndex(table: seq<(string, seq<string>)>, name: string): (r: nat)
    ensures r <= |table|
    ensures r < |table| ==> table[r].0 == name
    ensures name in Names(table) ==> r < |table|
  {
    if table == [] then 0 else if table[0].0 == name then 0 else 1 + NameIndex(table[1..], name)
  }

  /** The found sections of a concatenated table are those of each part, one after the other. */
  lemma {:induction false} FoundAppend(textLower: string, a: seq<(string, seq<string>)>, b: seq<(string, seq<string>)>)
    ensures Found(textLower, a + b) == Found(textLower, a) + Found(textLower, b)
  {
    if a == [] {
      assert a + b == b;
    } else {
      assert (a + b)[0] == a[0];
      assert (a + b)[1..] == a[1..] + b;
      FoundAppend(textLower, a[1..], b);
    }
  }

  /** One more entry of a table adds its name to the found names exactly when it is present. */
  lemma FoundPrefixStep(textLower: string, table: seq<(string, seq<string>)>, i: nat)
    requires i < |table|
    ensures Found(textLower, table[..i + 1]) == Found(textLower, table[..i])
      + (if SectionPresent(textLower, table[i].1) then [table[i].0] else [])
  {
    assert table[..i + 1] == table[..i] + [table[i]];
    FoundAppend(textLower, table[..i], [table[i]]);
    assert [table[i]][1..] == [];
  }

  /** A section name is found exactly when some entry of that name has a keyword in the text. */
  lemma {:induction false} FoundMembership(textLower: string, table: seq<(string, seq<string>)>, name: string)
    ensures name in Found(textLower, table) <==>
      exists i :: 0 <= i < |table| && table[i].0 == name && SectionPresent(textLower, table[i].1)
  {
    if table != [] {
      FoundMembership(textLower, table[1..], name);
      if name in Found(textLower, table[1..]) {
        var i :| 1 <= i + 1 < |table| && table[1..][i].0 == name && SectionPresent(textLower, table[1..][i].1);
        assert table[i + 1] == table[1..][i];
      }
      forall i | 1 <= i < |table| && table[i].0 == name && SectionPresent(textLower, table[i].1)
        ensures name in Found(textLower, table[1..])
      {
        assert table[1..][i - 1] == table[i];
      }
    }
  }

  /** The found names `r` follow the table order strictly. */
  predicate InTableOrder(table: seq<(string, seq<string>)>, r: seq<string>)
  {
    forall a, b :: 0 <= a < b < |r| ==> NameIndex(table, r[a]) < NameIndex(table, r[b])
  }

  lemma DistinctTail(table: seq<(string, seq<string>)>)
    requires table != [] && Distinct(Names(table))
    ensures table[0].0 !in Names(table[1..]) && Distinct(Names(table[1..]))
  {
    assert Names(table[1..]) == Names(table)[1..];
  }

  /** Only the table's names are found, at most once per entry. */
  lemma {:induction false} FoundInNames(textLower: string, table: seq<(string, seq<string>)>)
    ensures |Found(textLower, table)| <= |table|
    ensures forall x :: x in Found(textLower, table) ==> x in Names(table)
  {
    if table != [] {
      FoundInNames(textLower, table[1..]);
      assert Names(table) == [table[0].0] + Names(table[1..]);
    }
  }

  /** Names of the rest of a table, in its order, stay in order when the table's first name is
      put in front of them or when they are read against the whole table. */
  lemma InTableOrderCons(table: seq<(string, seq<string>)>, r: seq<string>)
    requires table != [] && table[0].0 !in Names(table[1..])
    requires forall x :: x in r ==> x in Names(table[1..])
    requires InTableOrder(table[1..], r)
    ensures InTableOrder(table, r)
    ensures InTableOrder(table, [table[0].0] + r)
  {
    InTableOrderWhole(table, r);
    forall k | 0 <= k < |r| ensures NameIndex(table, r[k]) >= 1 {
      assert r[k] in r;
      NameIndexTail(table, r[k]);
    }
    InTableOrderFront(table, table[0].0, r);
  }

  /** A name of index 0 can be put in front of ordered names whose indices are all positive. */
  lemma InTableOrderFront(table: seq<(string, seq<string>)>, h: string, r: seq<string>)
    requires NameIndex(table, h) == 0 && InTableOrder(table, r)
    requires forall k :: 0 <= k < |r| ==> NameIndex(table, r[k]) >= 1
    ensures InTableOrder(table, [h] + r)
  {
    var f := [h] + r;
    assert forall k :: 0 < k < |f| ==> f[k] == r[k - 1];
  }

  /** Names in the order of the rest of a table are in the order of the whole table. */
  lemma InTableOrderWhole(table: seq<(string, seq<string>)>, r: seq<string>)
    requires table != [] && table[0].0 !in Names(table[1..])
    requires forall x :: x in r ==> x in Names(table[1..])
    requires InTableOrder(table[1..], r)
    ensures InTableOrder(table, r)
  {
    forall a, b | 0 <= a < b < |r| ensures NameIndex(table, r[a]) < NameIndex(table, r[b]) {
      assert r[a] in r && r[b] in r;
      NameIndexTail(table, r[a]);
      NameIndexTail(table, r[b]);
    }
  }

  /** A name of the rest of a table sits one place further on in the whole table. */
  lemma NameIndexTail(table: seq<(string, seq<string>)>, name: string)
    requires table != [] && table[0].0 !in Names(table[1..]) && name in Names(table[1..])
    ensures NameIndex(table, name) == 1 + NameIndex(table[1..], name)
  {
    assert name != table[0].0;
  }

  /** The found sections follow the table order strictly (so none is repeated). */
  lemma {:induction false} FoundOrdered(textLower: string, table: seq<(string, seq<string>)>)
    requires Distinct(Names(table))
    ensures InTableOrder(table, Found(textLower, table))
  {
    if table != [] {
      DistinctTail(table);
      FoundOrdered(textLower, table[1..]);
      FoundInNames(textLower, table[1..]);
      InTableOrderCons(table, Found(textLower, table[1..]));
    }
  }

  /** Names in strict table order are pairwise different. */
  lemma InTableOrderDistinct(table: seq<(string, seq<string>)>, r: seq<string>)
    requires InTableOrder(table, r)
    ensures Distinct(r)
  {
  }

  /** The section names of the fixed table are pairwise different. */
  lemma SectionNamesDistinct()
    ensures Distinct(Names(SectionKeywords))
  {
    assert Names(SectionKeywords) ==
      ["Experiencia Laboral", "Educación", "Habilidades/Skills", "Resumen/Perfil", "Contacto"];
  }

  /** `round((found_count / total_sections) * 60)`: with five sections the quotient is always a
      whole number of points, so rounding changes nothing and each section is worth 12 points. */
  function SectionScore(foundCount: nat): (r: nat)
    requires foundCount <= TotalSections
    ensures r * TotalSections == foundCount * SectionWeight
    ensures r == 12 * foundCount
  {
    foundCount * SectionWeight / TotalSections
  }

  /** `_calculate_readability`'s contribution for a text of the given length. */
  function ReadabilityScore(textLength: nat): (r: nat)
    ensures r == ReadablePoints || r == 0
    ensures r > 0 <==> textLength > ReadableLength
  {
    if textLength > ReadableLength then ReadablePoints else 0
  }

  /** `_generate_summary` for a score: three bands split at 80 and 50. */
  function SummaryFor(score: int): (r: string)
    ensures r == Excellent <==> score >= 80
    ensures r == GoodStart <==> 50 <= score < 80
    ensures r == LowCompatibility <==> score < 50
  {
    if score >= 80 then Excellent
    else if score >= 50 then GoodStart
    else LowCompatibility
  }

  /** The sections one analysis of `text` finds. */
  function FoundSectionsOf(text: string): (r: seq<string>)
    ensures |r| <= TotalSections
  {
    Found(Lower(text), SectionKeywords)
  }

  /** The points the sections found in `text` are worth. */
  function SectionPointsOf(text: string): nat
  {
    FoundSectionsBounded(text);
    SectionScore(|FoundSectionsOf(text)|)
  }

  /** The points one analysis of `text` adds to the score. */
  function AnalysisPoints(text: string): int
  {
    SectionPointsOf(text) + ReadabilityScore(|text|)
  }

  lemma FoundSectionsBounded(text: string)
    ensures |FoundSectionsOf(text)| <= TotalSections
  {
    FoundInNames(Lower(text), SectionKeywords);
  }

  /** The points of one analysis: 12 per section found plus 40 for text over 100 characters,
      which keeps them between 0 and 100. */
  lemma AnalysisPointsSpec(text: string)
    ensures AnalysisPoints(text) == 12 * |FoundSectionsOf(text)| + (if |text| > 100 then 40 else 0)
    ensures 0 <= AnalysisPoints(text) <= 100
  {
    FoundSectionsBounded(text);
  }

  /** The i-th section is reported exactly when one of its keywords occurs in the lower-cased text. */
  lemma SectionFoundIff(text: string, i: nat)
    requires i < |SectionKeywords|
    ensures SectionKeywords[i].0 in FoundSectionsOf(text) <==> SectionPresent(Lower(text), SectionKeywords[i].1)
  {
    SectionNamesDistinct();
    var table := SectionKeywords;
    FoundMembership(Lower(text), table, table[i].0);
    if table[i].0 in FoundSectionsOf(text) {
      var j :| 0 <= j < |table| && table[j].0 == table[i].0 && SectionPresent(Lower(text), table[j].1);
      assert Names(table)[j] == Names(table)[i];
    }
  }

  /** A keyword occurring in the lower-cased text makes its section reported. */
  lemma SectionFoundAt(text: string, i: nat, k: nat)
    requires i < |SectionKeywords| && k < |SectionKeywords[i].1|
    requires Contains(Lower(text), SectionKeywords[i].1[k])
    ensures SectionKeywords[i].0 in FoundSectionsOf(text)
  {
    var keywords := SectionKeywords[i].1;
    assert SectionPresent(Lower(text), keywords);
    SectionFoundIff(text, i);
  }

  /** Every keyword starts with a lower-case ASCII letter. */
  lemma KeywordsStartWithLetters()
    ensures forall i, k :: 0 <= i < |SectionKeywords| && 0 <= k < |SectionKeywords[i].1| ==>
      |SectionKeywords[i].1[k]| > 0 && 'a' <= SectionKeywords[i].1[k][0] <= 'z'
  {
  }

  /** A text without ASCII letters (such as the empty text of a scanned PDF) reports no section. */
  lemma NoLettersNoSections(text: string)
    requires forall j :: 0 <= j < |text| ==> !('a' <= text[j] <= 'z') && !('A' <= text[j] <= 'Z')
    ensures FoundSectionsOf(text) == []
    ensures AnalysisPoints(text) == ReadabilityScore(|text|)
  {
    var lower := Lower(text);
    KeywordsStartWithLetters();
    forall i | 0 <= i < |SectionKeywords| ensures !SectionPresent(lower, SectionKeywords[i].1) {
      forall k | 0 <= k < |SectionKeywords[i].1| ensures !Contains(lower, SectionKeywords[i].1[k]) {
        var kw := SectionKeywords[i].1[k];
        assert kw[0] !in lower;
        NotContainsWithoutFirst(lower, kw);
      }
    }
    if FoundSectionsOf(text) != [] {
      var name := FoundSectionsOf(text)[0];
      FoundMembership(lower, SectionKeywords, name);
    }
  }

  /** The reported sections appear in the table's order, without repetition, at most five. */
  lemma FoundSectionsOrdered(text: string)
    ensures |FoundSectionsOf(text)| <= 5
    ensures forall s :: s in FoundSectionsOf(text) ==> s in Names(SectionKeywords)
    ensures InTableOrder(SectionKeywords, FoundSectionsOf(text))
    ensures Distinct(FoundSectionsOf(text))
  {
    SectionNamesDistinct();
    FoundInNames(Lower(text), SectionKeywords);
    FoundOrdered(Lower(text), SectionKeywords);
    InTableOrderDistinct(SectionKeywords, FoundSectionsOf(text));
  }

  /** A text of at most 100 characters scores at most 60 and never gets the "Excelente" summary. */
  lemma ShortTextNeverExcellent(text: string)
    requires |text| <= ReadableLength
    ensures AnalysisPoints(text) <= 60
    ensures SummaryFor(AnalysisPoints(text)) != Excellent
  {
    FoundSectionsBounded(text);
  }

  /** The analyzer built for one uploaded CV, holding its extracted text. */
  class Analyzer {
    const text: string
    var sectionsFound: seq<string>
    var score: int

    constructor (text: string)
      ensures this.text == text && sectionsFound == [] && score == 0
    {
      this.text := text;
      sectionsFound := [];
      score := 0;
    }

    /** The inner loop of `_check_sections`: stops at the first keyword found in the text. */
    static method ScanKeywords(textLower: string, keywords: seq<string>) returns (found: bool)
      ensures found <==> SectionPresent(textLower, keywords)
    {
      found := false;
      var j := 0;
      while j < |keywords|
        invariant 0 <= j <= |keywords| && !found
        invariant forall k :: 0 <= k < j ==> !Contains(textLower, keywords[k])
      {
        if Contains(textLower, keywords[j]) {
          found := true;
          break;
        }
        j := j + 1;
      }
    }

    /** `_check_sections`: appends the present sections and adds their points to the score;
        the loop over the keywords of one section is `ScanKeywords`. */
    method CheckSections()
      modifies this
      ensures sectionsFound == old(sectionsFound) + FoundSectionsOf(text)
      ensures score == old(score) + SectionPointsOf(text)
    {
      var textLower := Lower(text);
      var foundCount := 0;
      var i := 0;
      while i < |SectionKeywords|
        invariant 0 <= i <= |SectionKeywords|
        invariant sectionsFound == old(sectionsFound) + Found(textLower, SectionKeywords[..i])
        invariant foundCount == |Found(textLower, SectionKeywords[..i])|
        invariant score == old(score)
      {
        var (section, keywords) := SectionKeywords[i];
        var found := ScanKeywords(textLower, keywords);
        FoundPrefixStep(textLower, SectionKeywords, i);
        ghost var before := Found(textLower, SectionKeywords[..i]);
        if found {
          assert old(sectionsFound) + before + [section] == old(sectionsFound) + (before + [section]);
          assert |before + [section]| == |before| + 1;
          sectionsFound := sectionsFound + [section];
          foundCount := foundCount + 1;
        }
        i := i + 1;
      }
      assert SectionKeywords[..i] == SectionKeywords;
      FoundSectionsBounded(text);
      score := score + SectionScore(foundCount);
    }

    /** `_calculate_readability`: 40 more points when the text is longer than 100 characters. */
    method CalculateReadability()
      modifies this`score
      ensures score == old(score) + ReadabilityScore(|text|)
    {
      if |text| > ReadableLength {
        score := score + ReadablePoints;
      }
    }

    /** `_generate_summary` on the current score. */
    function GenerateSummary(): (r: string)
      reads this
      ensures r == Excellent <==> score >= 80
      ensures r == GoodStart <==> 50 <= score < 80
      ensures r == LowCompatibility <==> score < 50
    {
      SummaryFor(score)
    }

    /** `analyze`: runs both checks on top of whatever the analyzer already holds and reports
        the accumulated score and sections, the text length and the summary. */
    method Analyze() returns (report: Report)
      modifies this
      ensures sectionsFound == old(sectionsFound) + FoundSectionsOf(text)
      ensures score == old(score) + AnalysisPoints(text)
      ensures report == Report(score, sectionsFound, |text|, SummaryFor(score))
    {
      CheckSections();
      CalculateReadability();
      report := Report(score, sectionsFound, |text|, GenerateSummary());
    }
  }

  /** One analysis on a fresh analyzer, as each request does: the score is 12 per section found
      plus 40 for readable text, stays within 0..100, and the summary is that of the score. */
  method AnalyzeText(text: string) returns (report: Report)
    ensures report.sectionsFound == FoundSectionsOf(text)
    ensures report.score == 12 * |report.sectionsFound| + (if |text| > 100 then 40 else 0)
    ensures 0 <= report.score <= 100
    ensures report.textLength == |text|
    ensures report.summary == SummaryFor(report.score)
  {
    var analyzer := new Analyzer(text);
    report := analyzer.Analyze();
    AnalysisPointsSpec(text);
  }

  /** Analysing twice with the same analyzer is not idempotent: the second report repeats the
      sections and doubles the score, which then differs whenever the first one was positive. */
  method AnalyzeTwice(text: string) returns (first: Report, second: Report)
    ensures second.sectionsFound == first.sectionsFound + first.sectionsFound
    ensures second.score == 2 * first.score
    ensures |text| > ReadableLength ==> second.score != first.score && second.summary == Excellent
  {
    var analyzer := new Analyzer(text);
    first := analyzer.Analyze();
    second := analyzer.Analyze();
    AnalysisPointsSpec(text);
  }
}
