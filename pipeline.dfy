/**
 * What the "INICIAR VARREDURA MULTI-FONTE" button does (app.py, lines 93-103):
 * parse the whitelist, run the three collectors in turn, concatenate their
 * rows, and show the rows without duplicate links, or nothing-found when no
 * collector returned a row.
 */
module Pipeline {
  import opened Text
  import opened Filter
  import opened Whitelist
  import opened Collectors
  import opened Merge
  import opened Settings

  /** The two outcomes of a search: the error message, or the table. */
  datatype Outcome = NothingFound | Found(table: seq<Job>)

  /** Everything the three sources answered during one search. */
  datatype Answers = Answers(
    linkedin: PageRequest -> Page,
    remotive: string -> Response<RemotiveJob>,
    muse: Response<MuseJob>)

  /** The rows of `results`, in the order the collectors are called (lines 97-100). */
  function Results(input: string, q: SearchParams, pages: int, net: Answers): seq<Job> {
    var terms := ParseWhitelist(input);
    CrawlFrom(q, net.linkedin, terms, 0, pages).jobs
      + ListingJobs(net.remotive(q.role), RemotiveFields, terms, Remotive)
      + ListingJobs(net.muse, MuseFields, terms, TheMuse)
  }

  function Sweep(input: string, q: SearchParams, pages: int, net: Answers): Outcome {
    var results := Results(input, q, pages, net);
    if results == [] then NothingFound else Found(Dedup(results))
  }

  /**
   * The button's handler, up to the table it shows, from the sidebar's
   * values: the whitelist text, the role, the three selector choices and
   * the number of pages. As on line 98, the country goes out as its label (`ParamsAsWritten`).
   */
  method Run(input: string, role: string, country: Country, workplace: Workplace, posted: Posted,
             pages: int, net: Answers) returns (outcome: Outcome)
    ensures outcome == Sweep(input, ParamsAsWritten(role, country, workplace, posted), pages, net)
  {
    var q := ParamsAsWritten(role, country, workplace, posted);
    var terms := ParseWhitelist(input);
    var results: seq<Job> := [];
    var linkedin, _ := FetchLinkedIn(q, pages, terms, net.linkedin);
    AppendEmpty(linkedin);
    results := results + linkedin;
    var remotive := FetchRemotive(q.role, terms, net.remotive);
    results := results + remotive;
    var muse := FetchTheMuse(q.role, terms, net.muse);
    results := results + muse;
    assert linkedin == CrawlFrom(q, net.linkedin, terms, 0, pages).jobs;
    assert results == Results(input, q, pages, net);
    if results != [] {
      var table := DropDuplicates(results);
      outcome := Found(table);
    } else {
      outcome := NothingFound;
    }
  }

  /** The rank of a source in the order the collectors are called. */
  function Rank(s: Source): nat {
    match s
    case LinkedIn => 0
    case Remotive => 1
    case TheMuse => 2
  }

  /** Rows appear grouped by source: LinkedIn, then Remotive, then The Muse. */
  predicate BySource(rows: seq<Job>) {
    forall i, j :: 0 <= i < j < |rows| ==> Rank(rows[i].origin) <= Rank(rows[j].origin)
  }

  /** Every row passes the whitelist. */
  predicate AllPass(rows: seq<Job>, terms: seq<string>) {
    forall j :: j in rows ==> PassesFilter(j.title, terms)
  }

  predicate AllFrom(rows: seq<Job>, s: Source) {
    forall j :: j in rows ==> j.origin == s
  }

  lemma BySourceConcat(a: seq<Job>, b: seq<Job>, c: seq<Job>)
    requires AllFrom(a, LinkedIn) && AllFrom(b, Remotive) && AllFrom(c, TheMuse)
    ensures BySource(a + b + c)
  {
    var r := a + b + c;
    forall i, j | 0 <= i < j < |r| ensures Rank(r[i].origin) <= Rank(r[j].origin) {
      if i < |a| {
        assert r[i] in a;
      } else if i < |a| + |b| {
        assert r[i] in b;
        if j < |a| + |b| { assert r[j] in b; } else { assert r[j] in c; }
      } else {
        assert r[i] in c && r[j] in c;
      }
    }
  }

  /** The concatenated rows all pass the whitelist and are grouped by source. */
  lemma ResultsWellFormed(input: string, q: SearchParams, pages: int, net: Answers)
    ensures AllPass(Results(input, q, pages, net), ParseWhitelist(input))
    ensures BySource(Results(input, q, pages, net))
  {
    var terms := ParseWhitelist(input);
    var a := CrawlFrom(q, net.linkedin, terms, 0, pages).jobs;
    var b := ListingJobs(net.remotive(q.role), RemotiveFields, terms, Remotive);
    var c := ListingJobs(net.muse, MuseFields, terms, TheMuse);
    CrawlJobsWellFormed(q, net.linkedin, terms, 0, pages);
    ListingJobsWellFormed(net.remotive(q.role), RemotiveFields, terms, Remotive);
    ListingJobsWellFormed(net.muse, MuseFields, terms, TheMuse);
    BySourceConcat(a, b, c);
  }

  /** Keeping some rows, in order, keeps them grouped by source. */
  lemma SubsequenceBySource(s: seq<Job>, t: seq<Job>)
    requires IsSubsequence(s, t) && BySource(t)
    ensures BySource(s)
  {
    var idx :| Spells(idx, s, t);
    forall i, j | 0 <= i < j < |s| ensures Rank(s[i].origin) <= Rank(s[j].origin) {
      assert idx[i] < idx[j];
    }
  }

  /**
   * The table shown: not empty, no two rows with the same link, every link
   * of the collected rows represented, every row passing the whitelist, and
   * the rows grouped by source in the order the collectors ran.
   */
  lemma FoundTable(input: string, q: SearchParams, pages: int, net: Answers)
    requires Sweep(input, q, pages, net).Found?
    ensures var t := Sweep(input, q, pages, net).table;
      t != [] && DistinctLinks(t) && LinkSet(t) == LinkSet(Results(input, q, pages, net))
      && AllPass(t, ParseWhitelist(input)) && BySource(t)
  {
    var results := Results(input, q, pages, net);
    var t := Dedup(results);
    DedupDistinct(results);
    DedupLinks(results);
    DedupKeepsFirst(results);
    DedupSubsequence(results);
    ResultsWellFormed(input, q, pages, net);
    SubsequenceBySource(t, results);
    assert results[0] in results;
    assert results[0].link in LinkSet(t);
    forall j | j in t ensures PassesFilter(j.title, ParseWhitelist(input)) {
      var i :| FirstOfItsLink(results, i) && results[i] == j;
      assert results[i] in results;
    }
  }

  /** "Nenhuma vaga encontrada" is shown exactly when all three collectors returned nothing. */
  lemma NothingFoundWhenAllEmpty(input: string, q: SearchParams, pages: int, net: Answers)
    ensures var terms := ParseWhitelist(input);
      Sweep(input, q, pages, net) == NothingFound
      <==> (CrawlFrom(q, net.linkedin, terms, 0, pages).jobs == []
            && ListingJobs(net.remotive(q.role), RemotiveFields, terms, Remotive) == []
            && ListingJobs(net.muse, MuseFields, terms, TheMuse) == [])
  {
    var terms := ParseWhitelist(input);
    var a := CrawlFrom(q, net.linkedin, terms, 0, pages).jobs;
    var b := ListingJobs(net.remotive(q.role), RemotiveFields, terms, Remotive);
    var c := ListingJobs(net.muse, MuseFields, terms, TheMuse);
    assert |a + b + c| == |a| + |b| + |c|;
  }

  /** A LinkedIn row beats a row of a later source with the same link. */
  lemma LinkedInWins(input: string, q: SearchParams, pages: int, net: Answers)
    requires Sweep(input, q, pages, net).Found?
    ensures var terms := ParseWhitelist(input);
      var linkedin := CrawlFrom(q, net.linkedin, terms, 0, pages).jobs;
      forall x :: x in Sweep(input, q, pages, net).table && x.link in LinkSet(linkedin) ==> x in linkedin
  {
    var terms := ParseWhitelist(input);
    var a := CrawlFrom(q, net.linkedin, terms, 0, pages).jobs;
    var b := ListingJobs(net.remotive(q.role), RemotiveFields, terms, Remotive);
    var c := ListingJobs(net.muse, MuseFields, terms, TheMuse);
    ConcatAssoc(a, b, c);
    EarlierRowsWin(a, b + c);
  }

  /** A Remotive row likewise beats a row of The Muse with the same link. */
  lemma RemotiveBeatsTheMuse(input: string, q: SearchParams, pages: int, net: Answers)
    requires Sweep(input, q, pages, net).Found?
    ensures var terms := ParseWhitelist(input);
      var earlier := CrawlFrom(q, net.linkedin, terms, 0, pages).jobs
        + ListingJobs(net.remotive(q.role), RemotiveFields, terms, Remotive);
      forall x :: x in Sweep(input, q, pages, net).table && x.link in LinkSet(earlier) ==> x in earlier
  {
    var terms := ParseWhitelist(input);
    var a := CrawlFrom(q, net.linkedin, terms, 0, pages).jobs;
    var b := ListingJobs(net.remotive(q.role), RemotiveFields, terms, Remotive);
    var c := ListingJobs(net.muse, MuseFields, terms, TheMuse);
    EarlierRowsWin(a + b, c);
  }
}
