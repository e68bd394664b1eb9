/** Looking a provider key up by its name, page by page, under a page budget shared by a whole sweep. */
module ProviderScan {
  import opened Wrappers

  const MAX_PAGES := 20
  const PAGE_SIZE := 100
  const CLEANUP_LIMIT := 6

  /** A listed key as it arrives: None where the payload has no string in that place. */
  datatype Entry = Entry(name: Option<string>, hash: Option<string>)

  datatype Page = Listed(entries: seq<Entry>) | NotAList | RequestFailed

  datatype Lookup = Found(hash: string) | Complete | Incomplete(nextOffset: nat)

  predicate WellFormed(e: Entry) {
    e.name.Some? && e.hash.Some? && |e.hash.value| > 0
  }

  predicate Usable(page: Page) {
    page.Listed? && |page.entries| <= PAGE_SIZE && forall e <- page.entries :: WellFormed(e)
  }

  /** The first entry with this name. */
  function Match(entries: seq<Entry>, name: string): Option<Entry> {
    if entries == [] then None
    else if entries[0].name == Some(name) then Some(entries[0])
    else Match(entries[1..], name)
  }

  /** What the provider answers to the i-th request of a call, at an offset. */
  type Server = (nat, nat) -> Page

  /** The offset before each request, and the result. */
  datatype Scan = Scan(result: Lookup, asked: seq<nat>)

  function Spend(budget: Option<nat>): Option<nat> {
    if budget.Some? && budget.value > 0 then Some(budget.value - 1) else budget
  }

  function HashOf(e: Entry): string {
    if e.hash.Some? then e.hash.value else ""
  }

  function ScanFrom(server: Server, name: string, offset: nat, i: nat, budget: Option<nat>): Scan
    requires i <= MAX_PAGES
    decreases MAX_PAGES - i
  {
    if i == MAX_PAGES || budget == Some(0) then Scan(Incomplete(offset), [])
    else
      var page := server(i, offset);
      if !Usable(page) then Scan(Incomplete(offset), [offset])
      else if Match(page.entries, name).Some? then Scan(Found(HashOf(Match(page.entries, name).value)), [offset])
      else if |page.entries| < PAGE_SIZE then Scan(if offset == 0 then Complete else Incomplete(0), [offset])
      else
        var rest := ScanFrom(server, name, offset + |page.entries|, i + 1, Spend(budget));
        Scan(rest.result, [offset] + rest.asked)
  }

  /** What one cron run may still spend, shared by all its sweeps. */
  class CleanupBudget {
    var remainingCandidates: nat
    var remainingProviderPages: nat

    constructor ()
      ensures remainingCandidates == remainingProviderPages == 6
    {
      remainingCandidates, remainingProviderPages := CLEANUP_LIMIT, CLEANUP_LIMIT;
    }
  }

  function Left(budget: CleanupBudget?): Option<nat>
    reads budget
  {
    if budget == null then None else Some(budget.remainingProviderPages)
  }

  method FindInPage(entries: seq<Entry>, name: string) returns (found: Option<Entry>)
    ensures found == Match(entries, name)
  {
    var j := 0;
    while j < |entries|
      invariant 0 <= j <= |entries|
      invariant Match(entries, name) == Match(entries[j..], name)
    {
      if entries[j].name == Some(name) {
        return Some(entries[j]);
      }
      j := j + 1;
    }
    found := None;
  }

  method FindByName(server: Server, name: string, start: nat, budget: CleanupBudget?) returns (result: Lookup, asked: seq<nat>)
    modifies if budget == null then {} else {budget}
    ensures Scan(result, asked) == ScanFrom(server, name, start, 0, old(Left(budget)))
    ensures budget != null ==> |asked| <= old(budget.remainingProviderPages)
    ensures budget != null ==> budget.remainingProviderPages == old(budget.remainingProviderPages) - |asked|
    ensures budget != null ==> budget.remainingCandidates == old(budget.remainingCandidates)
  {
    hide WellFormed, Match, ScanFrom;
    var offset: nat := start;
    asked := [];
    var page: nat := 0;
    ghost var whole := ScanFrom(server, name, start, 0, Left(budget));
    while page < MAX_PAGES
      invariant 0 <= page <= MAX_PAGES && |asked| == page
      invariant budget != null ==> budget.remainingProviderPages == old(budget.remainingProviderPages) - page
      invariant budget != null ==> budget.remainingCandidates == old(budget.remainingCandidates)
      invariant whole.result == ScanFrom(server, name, offset, page, Left(budget)).result
      invariant whole.asked == asked + ScanFrom(server, name, offset, page, Left(budget)).asked
    {
      Unfold(server, name, offset, page, Left(budget));
      if budget != null && budget.remainingProviderPages == 0 {
        return Incomplete(offset), asked;
      }
      if budget != null {
        budget.remainingProviderPages := budget.remainingProviderPages - 1;
      }
      var answer := server(page, offset);
      asked := asked + [offset];
      if !Usable(answer) {
        return Incomplete(offset), asked;
      }
      var found := FindInPage(answer.entries, name);
      if found.Some? {
        return Found(HashOf(found.value)), asked;
      }
      if |answer.entries| < PAGE_SIZE {
        return if offset == 0 then Complete else Incomplete(0), asked;
      }
      offset := offset + |answer.entries|;
      page := page + 1;
    }
    Unfold(server, name, offset, page, Left(budget));
    result := Incomplete(offset);
  }

  /** One round of the scan. */
  lemma Unfold(server: Server, name: string, offset: nat, i: nat, budget: Option<nat>)
    requires i <= MAX_PAGES
    ensures var scan := ScanFrom(server, name, offset, i, budget);
            if i == MAX_PAGES || budget == Some(0) then scan == Scan(Incomplete(offset), [])
            else
              var page := server(i, offset);
              if !Usable(page) then scan == Scan(Incomplete(offset), [offset])
              else if Match(page.entries, name).Some? then scan == Scan(Found(HashOf(Match(page.entries, name).value)), [offset])
              else if |page.entries| < PAGE_SIZE then scan == Scan(if offset == 0 then Complete else Incomplete(0), [offset])
              else
                var rest := ScanFrom(server, name, offset + |page.entries|, i + 1, Spend(budget));
                scan == Scan(rest.result, [offset] + rest.asked)
  {
  }

  // ---------- limits ----------

  /** A call makes at most 20 requests and never more than the budget has left. */
  lemma {:induction false} PagesAreBounded(server: Server, name: string, offset: nat, i: nat, budget: Option<nat>)
    requires i <= MAX_PAGES
    ensures |ScanFrom(server, name, offset, i, budget).asked| <= 20 - i
    ensures budget.Some? ==> |ScanFrom(server, name, offset, i, budget).asked| <= budget.value
    decreases MAX_PAGES - i
  {
    if i < MAX_PAGES && budget != Some(0) && Usable(server(i, offset)) {
      PagesAreBounded(server, name, offset + |server(i, offset).entries|, i + 1, Spend(budget));
    }
  }

  // ---------- what a call asked and why it stopped ----------

  /** A failed request, or an answer that is not a list of at most 100 keys, each with a name and a hash. */
  predicate Unanswered(page: Page) {
    !page.Listed? || |page.entries| > 100 || exists e <- page.entries :: e.name.None? || e.hash.None? || e.hash == Some("")
  }

  lemma UsableExactly(page: Page)
    ensures Usable(page) <==> !Unanswered(page)
    ensures Usable(page) ==> page.Listed? && |page.entries| <= 100
  {
  }

  /** An answer of 100 keys without the name. */
  predicate FullMiss(page: Page, name: string) {
    !Unanswered(page) && |page.entries| == 100 && Match(page.entries, name).None?
  }

  /** Main result: a call asks at the offset it starts from and then every 100 keys, on as long as it gets full pages
      without the name. It stops at the first other answer, after 20 requests or with the budget spent. A failed or
      malformed answer keeps the offset it was asked at, the end of the listing restarts at 0 or is complete there, and
      a call that ran out goes on behind its last page. */
  lemma {:induction false} ScanStopsExactly(server: Server, name: string, offset: nat, i: nat, budget: Option<nat>)
    requires i <= MAX_PAGES
    ensures var scan := ScanFrom(server, name, offset, i, budget);
            var n := |scan.asked|;
            && n <= 20 - i
            && (forall k :: 0 <= k < n ==> scan.asked[k] == offset + 100 * k)
            && (forall k :: 0 <= k < n - 1 ==> FullMiss(server(i + k, scan.asked[k]), name))
            && if n == 0 then scan.result == Incomplete(offset) && (i == 20 || budget == Some(0))
               else
                 var at := scan.asked[n - 1];
                 var page := server(i + n - 1, at);
                 && (Unanswered(page) ==> scan.result == Incomplete(at))
                 && (!Unanswered(page) && Match(page.entries, name).Some? ==> scan.result == Found(HashOf(Match(page.entries, name).value)))
                 && (!Unanswered(page) && Match(page.entries, name).None? && |page.entries| < 100 ==>
                       scan.result == if at == 0 then Complete else Incomplete(0))
                 && (FullMiss(page, name) ==> scan.result == Incomplete(at + 100) && (n == 20 - i || budget == Some(n)))
    decreases MAX_PAGES - i
  {
    hide ScanFrom, Match, WellFormed, Usable, Unanswered;
    UsableExactly(server(i, offset));
    Unfold(server, name, offset, i, budget);
    if i < MAX_PAGES && budget != Some(0) && FullMiss(server(i, offset), name) {
      ScanStopsExactly(server, name, offset + 100, i + 1, Spend(budget));
      var rest := ScanFrom(server, name, offset + 100, i + 1, Spend(budget));
      assert ScanFrom(server, name, offset, i, budget).asked == [offset] + rest.asked;
    }
  }

  // ---------- soundness, whatever the provider does between pages ----------

  /** The page of a listing that starts at an offset. */
  function PageOf(listing: seq<Entry>, offset: nat): Page {
    Listed(if offset >= |listing| then [] else if offset + PAGE_SIZE <= |listing| then listing[offset..offset + PAGE_SIZE] else listing[offset..])
  }

  predicate Names(listing: seq<Entry>, name: string) {
    exists k :: 0 <= k < |listing| && listing[k].name == Some(name)
  }

  /** The entry found is the first one with the name. */
  lemma {:induction false} MatchIsFirst(entries: seq<Entry>, name: string, k: nat)
    requires k < |entries| && entries[k].name == Some(name) && forall j :: 0 <= j < k ==> entries[j].name != Some(name)
    ensures Match(entries, name) == Some(entries[k])
  {
    if k > 0 {
      MatchIsFirst(entries[1..], name, k - 1);
    }
  }

  lemma {:induction false} MatchFinds(entries: seq<Entry>, name: string)
    ensures Match(entries, name).Some? <==> Names(entries, name)
    ensures Match(entries, name).Some? ==> Match(entries, name).value in entries && Match(entries, name).value.name == Some(name)
  {
    if entries != [] && entries[0].name != Some(name) {
      MatchFinds(entries[1..], name);
      if Names(entries, name) {
        var k :| 0 <= k < |entries| && entries[k].name == Some(name);
        assert entries[1..][k - 1].name == Some(name);
      }
    }
  }

  lemma {:induction false} LaterOffsetsNeverComplete(server: Server, name: string, offset: nat, i: nat, budget: Option<nat>)
    requires i <= MAX_PAGES && offset > 0
    ensures !ScanFrom(server, name, offset, i, budget).result.Complete?
    decreases MAX_PAGES - i
  {
    if i < MAX_PAGES && budget != Some(0) && Usable(server(i, offset)) {
      LaterOffsetsNeverComplete(server, name, offset + |server(i, offset).entries|, i + 1, Spend(budget));
    }
  }

  /** A provider that answers the i-th request from the listing of that moment. */
  function Changing(listings: nat -> seq<Entry>): Server {
    (i: nat, o: nat) => PageOf(listings(i), o)
  }

  lemma CompleteIsOnePage(server: Server, name: string, offset: nat, budget: Option<nat>)
    requires ScanFrom(server, name, offset, 0, budget).result.Complete?
    ensures offset == 0 && ScanFrom(server, name, offset, 0, budget).asked == [0]
    ensures Usable(server(0, 0)) && |server(0, 0).entries| < PAGE_SIZE && Match(server(0, 0).entries, name).None?
  {
    if offset > 0 {
      LaterOffsetsNeverComplete(server, name, offset, 0, budget);
    } else if |server(0, 0).entries| >= PAGE_SIZE {
      LaterOffsetsNeverComplete(server, name, |server(0, 0).entries|, 1, Spend(budget));
    }
  }

  /** Main result: however the listing changes between requests, a complete scan made a single request, at
      offset 0, and the listing of that moment was one unfilled page without the name. */
  lemma CompleteMeansAbsent(listings: nat -> seq<Entry>, name: string, offset: nat, budget: Option<nat>)
    requires ScanFrom(Changing(listings), name, offset, 0, budget).result.Complete?
    ensures ScanFrom(Changing(listings), name, offset, 0, budget).asked == [0]
    ensures |listings(0)| < 100 && !Names(listings(0), name)
  {
    hide ScanFrom;
    CompleteIsOnePage(Changing(listings), name, offset, budget);
    MatchFinds(PageOf(listings(0), 0).entries, name);
  }

  /** An attempt due for cleanup: its key name, its stored offset, and whether it has a recorded credential. */
  datatype Due = Due(name: string, offset: nat, recorded: bool)

  /** The candidate was found absent by one honest look at the start of the listing. */
  predicate SeenAbsent(server: Server, due: Due) {
    && due.offset == 0 && Usable(server(0, 0))
    && |server(0, 0).entries| < 100 && Match(server(0, 0).entries, due.name).None?
  }

  /** The first n candidates of a sweep: what each yields, and what is left to spend. */
  datatype Swept = Swept(results: seq<Option<Lookup>>, requests: nat, candidates: nat, pages: nat)

  /** A candidate with a recorded credential needs no lookup; any other gets one with what is left of the pages. */
  function SweepOf(due: seq<Due>, servers: seq<Server>, candidates: nat, pages: nat): (s: Swept)
    requires |servers| == |due|
    ensures |s.results| <= |due| && s.candidates + |s.results| == candidates && s.pages + s.requests == pages
  {
    if due == [] then Swept([], 0, candidates, pages)
    else
      var n := |due| - 1;
      var before := SweepOf(due[..n], servers[..n], candidates, pages);
      if |before.results| < n || before.candidates == 0 || before.pages == 0 then before
      else if due[n].recorded
      then Swept(before.results + [None], before.requests, before.candidates - 1, before.pages)
      else
        var scan := ScanFrom(servers[n], due[n].name, due[n].offset, 0, Some(before.pages));
        PagesAreBounded(servers[n], due[n].name, due[n].offset, 0, Some(before.pages));
        Swept(before.results + [Some(scan.result)], before.requests + |scan.asked|, before.candidates - 1, before.pages - |scan.asked|)
  }

  /** A sweep over due attempts, each with its own answers of the provider, on one budget: candidates and
      requests are paid for exactly, a sweep that stops early has spent one of the two, and whatever was
      left of the budget a candidate is reported complete only if it was seen absent. */
  method SweepDue(due: seq<Due>, servers: seq<Server>, budget: CleanupBudget) returns (results: seq<Option<Lookup>>, requests: nat)
    requires |servers| == |due|
    modifies budget
    ensures Swept(results, requests, budget.remainingCandidates, budget.remainingProviderPages)
            == SweepOf(due, servers, old(budget.remainingCandidates), old(budget.remainingProviderPages))
    ensures |results| <= |due|
    ensures budget.remainingCandidates + |results| == old(budget.remainingCandidates)
    ensures budget.remainingProviderPages + requests == old(budget.remainingProviderPages)
    ensures requests <= 20 * |results|
    ensures |results| < |due| ==> budget.remainingCandidates == 0 || budget.remainingProviderPages == 0
    ensures forall i :: 0 <= i < |results| ==> (results[i].None? <==> due[i].recorded)
    ensures forall i :: 0 <= i < |results| && results[i] == Some(Complete) ==> SeenAbsent(servers[i], due[i])
  {
    hide ScanFrom, SweepOf, SeenAbsent;
    results, requests := [], 0;
    ghost var candidates, pages := budget.remainingCandidates, budget.remainingProviderPages;
    SweepOfNone(servers[..0], candidates, pages);
    SweepFacts(due, servers, candidates, pages);
    for i := 0 to |due|
      invariant |results| == i
      invariant Swept(results, requests, budget.remainingCandidates, budget.remainingProviderPages)
                == SweepOf(due[..i], servers[..i], candidates, pages)
    {
      if budget.remainingCandidates == 0 || budget.remainingProviderPages == 0 {
        StopsHere(due, servers, candidates, pages, i);
        return;
      }
      SweepOfNext(due, servers, candidates, pages, i);
      budget.remainingCandidates := budget.remainingCandidates - 1;
      if due[i].recorded {
        results := results + [None];
      } else {
        var result, asked := FindByName(servers[i], due[i].name, due[i].offset, budget);
        results := results + [Some(result)];
        requests := requests + |asked|;
      }
    }
    assert due[..|due|] == due && servers[..|due|] == servers;
  }

  lemma SweepOfNone(servers: seq<Server>, candidates: nat, pages: nat)
    requires servers == []
    ensures SweepOf([], servers, candidates, pages) == Swept([], 0, candidates, pages)
  {
  }

  lemma SweepOfNext(due: seq<Due>, servers: seq<Server>, candidates: nat, pages: nat, i: nat)
    requires |servers| == |due| && i < |due|
    requires var s := SweepOf(due[..i], servers[..i], candidates, pages); |s.results| == i && s.candidates > 0 && s.pages > 0
    ensures var s := SweepOf(due[..i], servers[..i], candidates, pages);
            var scan := ScanFrom(servers[i], due[i].name, due[i].offset, 0, Some(s.pages));
            && |scan.asked| <= s.pages
            && SweepOf(due[..i + 1], servers[..i + 1], candidates, pages)
               == if due[i].recorded then Swept(s.results + [None], s.requests, s.candidates - 1, s.pages)
                  else Swept(s.results + [Some(scan.result)], s.requests + |scan.asked|, s.candidates - 1, s.pages - |scan.asked|)
  {
    hide ScanFrom;
    assert due[..i + 1][..i] == due[..i] && servers[..i + 1][..i] == servers[..i];
    PagesAreBounded(servers[i], due[i].name, due[i].offset, 0, Some(SweepOf(due[..i], servers[..i], candidates, pages).pages));
  }

  lemma CompleteIsSeen(due: Due, server: Server, pages: nat)
    requires ScanFrom(server, due.name, due.offset, 0, Some(pages)).result.Complete?
    ensures SeenAbsent(server, due)
  {
    hide ScanFrom, Match, Usable;
    CompleteIsOnePage(server, due.name, due.offset, Some(pages));
  }

  lemma {:induction false} SweepFacts(due: seq<Due>, servers: seq<Server>, candidates: nat, pages: nat)
    requires |servers| == |due|
    ensures var s := SweepOf(due, servers, candidates, pages);
            && s.requests <= 20 * |s.results|
            && (|s.results| < |due| ==> s.candidates == 0 || s.pages == 0)
            && (forall i :: 0 <= i < |s.results| ==> (s.results[i].None? <==> due[i].recorded))
            && (forall i :: 0 <= i < |s.results| && s.results[i] == Some(Complete) ==> SeenAbsent(servers[i], due[i]))
    decreases |due|
  {
    hide ScanFrom, SeenAbsent;
    if due != [] {
      var n := |due| - 1;
      var before := SweepOf(due[..n], servers[..n], candidates, pages);
      SweepFacts(due[..n], servers[..n], candidates, pages);
      if |before.results| == n && before.candidates > 0 && before.pages > 0 && !due[n].recorded {
        PagesAreBounded(servers[n], due[n].name, due[n].offset, 0, Some(before.pages));
        if ScanFrom(servers[n], due[n].name, due[n].offset, 0, Some(before.pages)).result.Complete? {
          CompleteIsSeen(due[n], servers[n], before.pages);
        }
      }
    }
  }

  /** Once a sweep has stopped, the rest of the list changes nothing. */
  lemma {:induction false} StopsHere(due: seq<Due>, servers: seq<Server>, candidates: nat, pages: nat, i: nat)
    requires |servers| == |due| && i <= |due|
    requires var s := SweepOf(due[..i], servers[..i], candidates, pages); s.candidates == 0 || s.pages == 0
    ensures SweepOf(due, servers, candidates, pages) == SweepOf(due[..i], servers[..i], candidates, pages)
    decreases |due|
  {
    hide ScanFrom;
    if i == |due| {
      assert due[..i] == due && servers[..i] == servers;
    } else {
      var n := |due| - 1;
      assert due[..n][..i] == due[..i] && servers[..n][..i] == servers[..i];
      StopsHere(due[..n], servers[..n], candidates, pages, i);
    }
  }

  /** A key that is found was listed under the name in one of the answers. */
  lemma {:induction false} FoundWasListed(server: Server, name: string, offset: nat, i: nat, budget: Option<nat>)
    requires i <= MAX_PAGES && ScanFrom(server, name, offset, i, budget).result.Found?
    ensures exists k: nat, o: nat ::
              && i <= k < MAX_PAGES && server(k, o).Listed?
              && Entry(Some(name), Some(ScanFrom(server, name, offset, i, budget).result.hash)) in server(k, o).entries
    decreases MAX_PAGES - i
  {
    var page := server(i, offset);
    if Match(page.entries, name).Some? {
      MatchFinds(page.entries, name);
      var e := Match(page.entries, name).value;
      assert e in page.entries && WellFormed(e);
      assert e == Entry(Some(name), Some(ScanFrom(server, name, offset, i, budget).result.hash));
      assert server(i, offset).Listed?;
    } else {
      FoundWasListed(server, name, offset + |page.entries|, i + 1, Spend(budget));
    }
  }

  // ---------- a stable listing ----------

  function Stable(listing: seq<Entry>): Server {
    (i: nat, o: nat) => PageOf(listing, o)
  }

  predicate AllWellFormed(listing: seq<Entry>) {
    forall k :: 0 <= k < |listing| ==> WellFormed(listing[k])
  }

  lemma StablePage(listing: seq<Entry>, offset: nat)
    requires AllWellFormed(listing)
    ensures Usable(PageOf(listing, offset))
    ensures |PageOf(listing, offset).entries| == if offset >= |listing| then 0 else if offset + PAGE_SIZE <= |listing| then PAGE_SIZE else |listing| - offset
    ensures forall j :: 0 <= j < |PageOf(listing, offset).entries| ==> PageOf(listing, offset).entries[j] == listing[offset + j]
  {
  }

  /** On a stable listing a scan is complete exactly when it starts at 0 with a page to spend and the listing is
      one unfilled page without the name. With 100 keys or more absence is never established. */
  lemma CompleteExactly(listing: seq<Entry>, name: string, offset: nat, budget: Option<nat>)
    requires AllWellFormed(listing)
    ensures ScanFrom(Stable(listing), name, offset, 0, budget).result.Complete?
            <==> offset == 0 && budget != Some(0) && |listing| < 100 && !Names(listing, name)
  {
    StablePage(listing, offset);
    var page := PageOf(listing, offset);
    MatchFinds(page.entries, name);
    if offset > 0 {
      LaterOffsetsNeverComplete(Stable(listing), name, offset, 0, budget);
    } else if |listing| >= PAGE_SIZE && budget != Some(0) && Match(page.entries, name).None? {
      LaterOffsetsNeverComplete(Stable(listing), name, offset + PAGE_SIZE, 1, Spend(budget));
    } else {
      assert |listing| < PAGE_SIZE ==> page.entries == listing;
    }
  }

  /** How many pages lie between an offset and position k, going round once if the offset is past it. */
  function PagesTo(size: nat, k: nat, offset: nat): nat
    requires k < size
  {
    if offset <= k then (k - offset) / PAGE_SIZE + 1
    else (if offset >= size then 1 else (size - offset) / PAGE_SIZE + 1) + k / PAGE_SIZE + 1
  }

  /** A call that may make a request finds the name or leaves fewer pages to go. */
  lemma {:induction false} CallProgresses(listing: seq<Entry>, name: string, k: nat, offset: nat, i: nat, budget: Option<nat>)
    requires AllWellFormed(listing) && k < |listing| && listing[k].name == Some(name)
    requires i <= MAX_PAGES
    ensures var r := ScanFrom(Stable(listing), name, offset, i, budget).result;
            r.Found? || (r.Incomplete? && PagesTo(|listing|, k, r.nextOffset) <= PagesTo(|listing|, k, offset)
                         && (i < MAX_PAGES && budget != Some(0) ==> PagesTo(|listing|, k, r.nextOffset) < PagesTo(|listing|, k, offset)))
    decreases MAX_PAGES - i
  {
    hide ScanFrom, PagesTo, Names, AllWellFormed, PageOf, Match;
    Unfold(Stable(listing), name, offset, i, budget);
    if i < MAX_PAGES && budget != Some(0) {
      StablePage(listing, offset);
      NotOnThisPage(listing, name, k, offset);
      var page := PageOf(listing, offset);
      MatchFinds(page.entries, name);
      if Match(page.entries, name).None? {
        if |page.entries| == PAGE_SIZE {
          OnePageOn(|listing|, k, offset);
          CallProgresses(listing, name, k, offset + PAGE_SIZE, i + 1, Spend(budget));
        } else {
          RoundTheEnd(|listing|, k, offset);
        }
      }
    }
  }

  lemma RoundTheEnd(size: nat, k: nat, offset: nat)
    requires k < size && offset > k && size < offset + PAGE_SIZE
    ensures PagesTo(size, k, 0) < PagesTo(size, k, offset)
  {
  }

  lemma NotOnThisPage(listing: seq<Entry>, name: string, k: nat, offset: nat)
    requires AllWellFormed(listing) && k < |listing| && listing[k].name == Some(name)
    ensures Names(PageOf(listing, offset).entries, name) || offset > k || offset + PAGE_SIZE <= k
  {
    StablePage(listing, offset);
    var entries := PageOf(listing, offset).entries;
    if offset <= k < offset + PAGE_SIZE {
      assert entries[k - offset].name == Some(name);
    }
  }

  lemma OnePageOn(size: nat, k: nat, offset: nat)
    requires k < size && (offset > k || offset + PAGE_SIZE <= k) && offset + PAGE_SIZE <= size
    ensures PagesTo(size, k, offset + PAGE_SIZE) < PagesTo(size, k, offset)
  {
  }

  /** Calls chained through the stored offset, each with its own budget. */
  function Chain(listing: seq<Entry>, name: string, offset: nat, budgets: seq<Option<nat>>): Lookup
    decreases |budgets|
  {
    if budgets == [] then Incomplete(offset)
    else
      var r := ScanFrom(Stable(listing), name, offset, 0, budgets[0]).result;
      if r.Incomplete? then Chain(listing, name, r.nextOffset, budgets[1..]) else r
  }

  /** Main result: from any stored offset, a key on a stable listing is found within as many calls as there are
      pages on the way to it, even if each call may read only one page. */
  lemma {:induction false} ChainFinds(listing: seq<Entry>, name: string, k: nat, offset: nat, budgets: seq<Option<nat>>)
    requires AllWellFormed(listing) && k < |listing| && listing[k].name == Some(name)
    requires forall b <- budgets :: b != Some(0)
    requires |budgets| >= PagesTo(|listing|, k, offset)
    ensures Chain(listing, name, offset, budgets).Found?
    decreases |budgets|
  {
    assert budgets[0] in budgets;
    CallProgresses(listing, name, k, offset, 0, budgets[0]);
    var r := ScanFrom(Stable(listing), name, offset, 0, budgets[0]).result;
    if r.Incomplete? {
      assert forall b <- budgets[1..] :: b in budgets;
      ChainFinds(listing, name, k, r.nextOffset, budgets[1..]);
    }
  }

  /** That number is at most twice the number of pages. */
  lemma PagesToBound(size: nat, k: nat, offset: nat)
    requires k < size
    ensures 1 <= PagesTo(size, k, offset) <= 2 * (size / 100) + 2
  {
  }
}
