/*
  The eleven tables of a ticker and their on-disk cache.

  Every table has a `get_*` method (return the saved copy, scraping and saving
  only when there is none) and an `update_*` method (always scrape and save).
  The eleven pairs differ only in the page they scrape and the file name they
  save under, so they are modelled once, parameterised by a `Category`.  The
  saved files are a map from category to table; every scrape is logged, so
  "how many times was the site visited, and for what" is part of the state.

  Each `_scrape_*` method is the page scrape of the extraction model applied
  to that category's page; here it is a parameter `scrape`, the outcome a
  scrape of each category would have at the time of the call
  (`ScrapeSite(site)` builds it from the pages).  The CSV round trip
  (`to_csv`, then `read_csv(...).set_index("index")`) is taken to give back
  the table that was saved.
*/
module Cache {
  import opened Wrappers
  import opened Extraction

  datatype Category =
    | Summary
    | IncomeStatement
    | BalanceSheet
    | CashFlow
    | Profitability
    | Credit
    | Liquidity
    | WorkingCapital
    | EnterpriseValue
    | Multiples
    | PerShareData

  /** The file stem the table is saved under, which is also its key in the
      dictionaries the aggregate methods return. */
  function Name(c: Category): string {
    match c
    case Summary => "summary"
    case IncomeStatement => "income_statement"
    case BalanceSheet => "balance_sheet"
    case CashFlow => "cash_flow"
    case Profitability => "profitability"
    case Credit => "credit"
    case Liquidity => "liquidity"
    case WorkingCapital => "working_capital"
    case EnterpriseValue => "enterprise_value"
    case Multiples => "multiples"
    case PerShareData => "per_share_data"
  }

  /** The category whose table is saved under `name`, if any. */
  function CategoryOf(name: string): Option<Category> {
    if name == "summary" then Some(Summary)
    else if name == "income_statement" then Some(IncomeStatement)
    else if name == "balance_sheet" then Some(BalanceSheet)
    else if name == "cash_flow" then Some(CashFlow)
    else if name == "profitability" then Some(Profitability)
    else if name == "credit" then Some(Credit)
    else if name == "liquidity" then Some(Liquidity)
    else if name == "working_capital" then Some(WorkingCapital)
    else if name == "enterprise_value" then Some(EnterpriseValue)
    else if name == "multiples" then Some(Multiples)
    else if name == "per_share_data" then Some(PerShareData)
    else None
  }

  /** Each category has its own file name: the name leads back to it. */
  lemma NameRoundTrip(c: Category)
    ensures CategoryOf(Name(c)) == Some(c)
  {
  }

  /** The tables of the financials page, in the order they are fetched. */
  const FinancialStatements: seq<Category> := [IncomeStatement, BalanceSheet, CashFlow]

  /** The tables of the ratios page, in the order they are fetched. */
  const Ratios: seq<Category> :=
    [Profitability, Credit, Liquidity, WorkingCapital, EnterpriseValue, Multiples, PerShareData]

  /** The page shown for each category. */
  type Site = Category -> Page

  /** The outcome of each `_scrape_*` method. */
  type Scrape = Category -> Result<Table, ScrapeError>

  function ScrapeSite(site: Site): Scrape {
    c => ScrapeTable(site(c))
  }

  /** What is on disk, and the log of every scrape made so far. */
  datatype Store = Store(saved: map<Category, Table>, scrapes: seq<Category>)

  /** `update_*`: scrape, log the scrape, and save the table when the scrape
      succeeds (a failed scrape raises before `to_csv`). */
  function UpdateTable(s: Store, c: Category, scrape: Scrape): (Store, Result<Table, ScrapeError>) {
    var r := scrape(c);
    (Store(if r.Ok? then s.saved[c := r.value] else s.saved, s.scrapes + [c]), r)
  }

  /** `get_*`: the saved table when there is one, otherwise `update_*`. */
  function GetTable(s: Store, c: Category, scrape: Scrape): (Store, Result<Table, ScrapeError>) {
    if c in s.saved then (s, Ok(s.saved[c])) else UpdateTable(s, c, scrape)
  }

  /** One member of a pair, chosen by the aggregates' `update` flag. */
  function Fetch(s: Store, c: Category, update: bool, scrape: Scrape): (Store, Result<Table, ScrapeError>) {
    if update then UpdateTable(s, c, scrape) else GetTable(s, c, scrape)
  }

  /** The aggregates: fetch each category in order; the first failure
      propagates and the later categories are not fetched; on success the
      dictionary maps each category (whose key in the source is its `Name`)
      to its table. */
  function FetchAll(s: Store, cats: seq<Category>, update: bool, scrape: Scrape): (Store, Result<map<Category, Table>, ScrapeError>)
    decreases |cats|
  {
    if cats == [] then (s, Ok(map[]))
    else
      var first := Fetch(s, cats[0], update, scrape);
      if first.1.Err? then (first.0, Err(first.1.error))
      else
        var rest := FetchAll(first.0, cats[1..], update, scrape);
        if rest.1.Err? then rest
        else (rest.0, Ok(rest.1.value[cats[0] := first.1.value]))
  }

  predicate NoRepeats(cats: seq<Category>) {
    forall i, j :: 0 <= i < j < |cats| ==> cats[i] != cats[j]
  }

  /** The categories of `cats` with no saved table, in order. */
  function Uncached(cats: seq<Category>, saved: map<Category, Table>): seq<Category> {
    if cats == [] then []
    else (if cats[0] in saved then [] else [cats[0]]) + Uncached(cats[1..], saved)
  }

  /** The categories an aggregate scrapes: all of them when updating,
      otherwise those with no saved table. */
  function Needed(cats: seq<Category>, saved: map<Category, Table>, update: bool): seq<Category> {
    if update then cats else Uncached(cats, saved)
  }

  predicate AllScrapesSucceed(cats: seq<Category>, scrape: Scrape) {
    forall i :: 0 <= i < |cats| ==> scrape(cats[i]).Ok?
  }

  /** The two groups list each category once, share none, and leave the
      summary out. */
  lemma GroupsAreDisjoint()
    ensures NoRepeats(FinancialStatements) && NoRepeats(Ratios)
    ensures forall c :: c in FinancialStatements ==> c !in Ratios
    ensures Summary !in FinancialStatements && Summary !in Ratios
  {
  }

  // ----- one get or update -----

  /** A get that finds the table saved changes nothing and scrapes nothing;
      one that does not scrapes exactly once, for that category, and saves
      the table under that category only. */
  lemma GetTableEffect(s: Store, c: Category, scrape: Scrape, d: Category)
    ensures var (s', r) := GetTable(s, c, scrape);
            && (c in s.saved ==> s' == s && r == Ok(s.saved[c]))
            && (c !in s.saved ==> s'.scrapes == s.scrapes + [c] && r == scrape(c)
                                  && (r.Ok? <==> c in s'.saved)
                                  && (r.Ok? ==> s'.saved[c] == r.value))
            && (d != c ==> (d in s'.saved <==> d in s.saved) && (d in s.saved ==> s'.saved[d] == s.saved[d]))
  {
  }

  /** An update scrapes exactly once and, when the scrape succeeds,
      overwrites the saved table of that category and no other. */
  lemma UpdateTableEffect(s: Store, c: Category, scrape: Scrape, d: Category)
    ensures var (s', r) := UpdateTable(s, c, scrape);
            && s'.scrapes == s.scrapes + [c] && r == scrape(c)
            && (r.Ok? ==> c in s'.saved && s'.saved[c] == r.value)
            && (r.Err? ==> s'.saved == s.saved)
            && (d != c ==> (d in s'.saved <==> d in s.saved) && (d in s.saved ==> s'.saved[d] == s.saved[d]))
  {
  }

  /** A second get of the same category, after a first that succeeded,
      returns the same table and changes nothing. */
  lemma GetTwice(s: Store, c: Category, scrape: Scrape)
    requires GetTable(s, c, scrape).1.Ok?
    ensures var (s', r) := GetTable(s, c, scrape);
            GetTable(s', c, scrape) == (s', r)
  {
  }

  // ----- the aggregates -----

  lemma {:induction false} UncachedAfterSave(cats: seq<Category>, saved: map<Category, Table>, c: Category, t: Table)
    requires c !in cats
    ensures Uncached(cats, saved[c := t]) == Uncached(cats, saved)
  {
    if cats != [] {
      UncachedAfterSave(cats[1..], saved, c, t);
    }
  }

  lemma NoRepeatsTail(cats: seq<Category>)
    requires cats != [] && NoRepeats(cats)
    ensures NoRepeats(cats[1..]) && cats[0] !in cats[1..]
  {
    forall k | 0 <= k < |cats| - 1
      ensures cats[1..][k] != cats[0]
    {
      assert cats[1..][k] == cats[k + 1];
    }
  }

  /** A successful aggregate scrapes exactly the needed categories, in order:
      all of them when updating, otherwise those not already saved. */
  lemma FetchAllScrapes(s: Store, cats: seq<Category>, update: bool, scrape: Scrape)
    requires NoRepeats(cats)
    requires FetchAll(s, cats, update, scrape).1.Ok?
    ensures FetchAll(s, cats, update, scrape).0.scrapes == s.scrapes + Needed(cats, s.saved, update)
  {
    if update {
      UpdatingScrapesAll(s, cats, scrape);
    } else {
      GettingScrapesUncached(s, cats, scrape);
    }
  }

  lemma {:induction false} UpdatingScrapesAll(s: Store, cats: seq<Category>, scrape: Scrape)
    decreases |cats|
    requires FetchAll(s, cats, true, scrape).1.Ok?
    ensures FetchAll(s, cats, true, scrape).0.scrapes == s.scrapes + cats
  {
    if cats != [] {
      var first := UpdateTable(s, cats[0], scrape);
      assert FetchAll(s, cats, true, scrape).0 == FetchAll(first.0, cats[1..], true, scrape).0;
      UpdatingScrapesAll(first.0, cats[1..], scrape);
      assert (s.scrapes + [cats[0]]) + cats[1..] == s.scrapes + cats;
    }
  }

  lemma {:induction false} GettingScrapesUncached(s: Store, cats: seq<Category>, scrape: Scrape)
    decreases |cats|
    requires NoRepeats(cats)
    requires FetchAll(s, cats, false, scrape).1.Ok?
    ensures FetchAll(s, cats, false, scrape).0.scrapes == s.scrapes + Uncached(cats, s.saved)
  {
    if cats != [] {
      NoRepeatsTail(cats);
      var first := GetTable(s, cats[0], scrape);
      assert FetchAll(s, cats, false, scrape).0 == FetchAll(first.0, cats[1..], false, scrape).0;
      GettingScrapesUncached(first.0, cats[1..], scrape);
      if cats[0] in s.saved {
        assert first.0 == s;
        assert Uncached(cats, s.saved) == Uncached(cats[1..], s.saved);
      } else {
        assert first.0.saved == s.saved[cats[0] := first.1.value];
        UncachedAfterSave(cats[1..], s.saved, cats[0], first.1.value);
        assert Uncached(cats, s.saved) == [cats[0]] + Uncached(cats[1..], s.saved);
        assert (s.scrapes + [cats[0]]) + Uncached(cats[1..], s.saved) == s.scrapes + ([cats[0]] + Uncached(cats[1..], s.saved));
      }
    }
  }

  /** An aggregate succeeds exactly when every scrape it needs succeeds. */
  lemma {:induction false} FetchAllOkIff(s: Store, cats: seq<Category>, update: bool, scrape: Scrape)
    decreases |cats|
    requires NoRepeats(cats)
    ensures FetchAll(s, cats, update, scrape).1.Ok? <==> AllScrapesSucceed(Needed(cats, s.saved, update), scrape)
  {
    if cats != [] {
      NoRepeatsTail(cats);
      var first := Fetch(s, cats[0], update, scrape);
      var n := Needed(cats, s.saved, update);
      var head := if update || cats[0] !in s.saved then [cats[0]] else [];
      assert n == head + Needed(cats[1..], s.saved, update);
      if first.1.Ok? {
        FetchAllOkIff(first.0, cats[1..], update, scrape);
        if !update && cats[0] !in s.saved {
          UncachedAfterSave(cats[1..], s.saved, cats[0], first.1.value);
        }
        assert Needed(cats[1..], first.0.saved, update) == Needed(cats[1..], s.saved, update);
        assert n[|head|..] == Needed(cats[1..], s.saved, update);
      } else {
        assert n[0] == cats[0];
      }
    }
  }

  /** The position of the first category in `cats` whose scrape fails, or
      |cats| when none does. */
  function FirstFailure(cats: seq<Category>, scrape: Scrape): (j: nat)
    ensures j <= |cats|
    ensures forall k :: 0 <= k < j ==> scrape(cats[k]).Ok?
    ensures j < |cats| ==> scrape(cats[j]).Err?
  {
    if cats == [] then 0
    else if scrape(cats[0]).Err? then 0
    else 1 + FirstFailure(cats[1..], scrape)
  }

  /** What a successful first fetch leaves for the rest of the group: the
      needed categories are the first one, when it was scraped, followed by
      those the rest still needs. */
  lemma NeededAfterFirst(s: Store, cats: seq<Category>, update: bool, scrape: Scrape)
    requires NoRepeats(cats) && cats != []
    requires Fetch(s, cats[0], update, scrape).1.Ok?
    ensures Needed(cats, s.saved, update)
            == (if update || cats[0] !in s.saved then [cats[0]] else [])
               + Needed(cats[1..], Fetch(s, cats[0], update, scrape).0.saved, update)
  {
    NoRepeatsTail(cats);
    var first := Fetch(s, cats[0], update, scrape);
    if !update && cats[0] !in s.saved {
      UncachedAfterSave(cats[1..], s.saved, cats[0], first.1.value);
    }
  }

  /** A failed first fetch ends the aggregate with that fetch's error; it
      can only be a scrape. */
  lemma FailedStepAtFirst(s: Store, cats: seq<Category>, update: bool, scrape: Scrape)
    requires cats != [] && Fetch(s, cats[0], update, scrape).1.Err?
    ensures update || cats[0] !in s.saved
    ensures var first := Fetch(s, cats[0], update, scrape);
            FetchAll(s, cats, update, scrape) == (first.0, Err(first.1.error))
  {
  }

  /** After a successful first fetch the aggregate ends as the rest does. */
  lemma FailedStepLater(s: Store, cats: seq<Category>, update: bool, scrape: Scrape)
    requires cats != [] && Fetch(s, cats[0], update, scrape).1.Ok?
    requires FetchAll(Fetch(s, cats[0], update, scrape).0, cats[1..], update, scrape).1.Err?
    ensures FetchAll(s, cats, update, scrape) == FetchAll(Fetch(s, cats[0], update, scrape).0, cats[1..], update, scrape)
  {
  }

  /** Skipping one successful scrape moves the first failure by one, and
      the prefixes up to it gain that scrape in front. */
  lemma FirstFailureShift(head: seq<Category>, tail: seq<Category>, scrape: Scrape)
    requires |head| <= 1 && (head != [] ==> scrape(head[0]).Ok?)
    ensures var j, jt := FirstFailure(head + tail, scrape), FirstFailure(tail, scrape);
            && j == |head| + jt
            && (head + tail)[..j] == head + tail[..jt]
            && (jt < |tail| ==> (head + tail)[..j + 1] == head + tail[..jt + 1] && (head + tail)[j] == tail[jt])
  {
    if head != [] {
      assert (head + tail)[0] == head[0] && (head + tail)[1..] == tail;
    } else {
      assert head + tail == tail;
    }
  }

  lemma AppendAssociates(a: seq<Category>, b: seq<Category>, c: seq<Category>)
    ensures (a + b) + c == a + (b + c)
  {
  }

  /** A failed aggregate stopped at the first needed scrape that fails and
      raised its error: the scrapes before it, and that one, are logged, and
      nothing after it is scraped. */
  predicate FailureLogged(s: Store, cats: seq<Category>, update: bool, scrape: Scrape) {
    var n := Needed(cats, s.saved, update);
    var j := FirstFailure(n, scrape);
    var (s', r) := FetchAll(s, cats, update, scrape);
    && r.Err?
    && j < |n|
    && r.error == scrape(n[j]).error
    && s'.scrapes == s.scrapes + n[..j + 1]
  }

  /** After a failed aggregate, category c keeps its fresh table when it was
      scraped successfully before the failure; otherwise (the failing one,
      one already saved, one never reached, one outside the group) it keeps
      what was saved for it. */
  predicate FailureSaved(s: Store, cats: seq<Category>, update: bool, scrape: Scrape, c: Category) {
    var n := Needed(cats, s.saved, update);
    var j := FirstFailure(n, scrape);
    var s' := FetchAll(s, cats, update, scrape).0;
    && j <= |n|
    && (c in n[..j] ==> c in s'.saved && scrape(c) == Ok(s'.saved[c]))
    && (c !in n[..j] ==> (c in s'.saved <==> c in s.saved) && (c in s.saved ==> s'.saved[c] == s.saved[c]))
  }

  lemma FailsAtFirst(s: Store, cats: seq<Category>, update: bool, scrape: Scrape, c: Category)
    requires cats != [] && Fetch(s, cats[0], update, scrape).1.Err?
    ensures FailureLogged(s, cats, update, scrape) && FailureSaved(s, cats, update, scrape, c)
  {
    FailedStepAtFirst(s, cats, update, scrape);
    var n := Needed(cats, s.saved, update);
    assert n[0] == cats[0];
    assert n[..1] == [cats[0]];
    assert n[..0] == [];
  }

  lemma FailsLaterLogged(s: Store, cats: seq<Category>, update: bool, scrape: Scrape)
    requires NoRepeats(cats) && cats != []
    requires Fetch(s, cats[0], update, scrape).1.Ok?
    requires FailureLogged(Fetch(s, cats[0], update, scrape).0, cats[1..], update, scrape)
    ensures FailureLogged(s, cats, update, scrape)
  {
    var first := Fetch(s, cats[0], update, scrape);
    FailedStepLater(s, cats, update, scrape);
    var head := if update || cats[0] !in s.saved then [cats[0]] else [];
    var tail := Needed(cats[1..], first.0.saved, update);
    NeededAfterFirst(s, cats, update, scrape);
    FirstFailureShift(head, tail, scrape);
    assert first.0.scrapes == s.scrapes + head;
    AppendAssociates(s.scrapes, head, tail[..FirstFailure(tail, scrape) + 1]);
  }

  lemma FailsLaterSaved(s: Store, cats: seq<Category>, update: bool, scrape: Scrape, c: Category)
    requires NoRepeats(cats) && cats != []
    requires Fetch(s, cats[0], update, scrape).1.Ok?
    requires FetchAll(Fetch(s, cats[0], update, scrape).0, cats[1..], update, scrape).1.Err?
    requires FailureSaved(Fetch(s, cats[0], update, scrape).0, cats[1..], update, scrape, c)
    ensures FailureSaved(s, cats, update, scrape, c)
  {
    var first := Fetch(s, cats[0], update, scrape);
    FailedStepLater(s, cats, update, scrape);
    NoRepeatsTail(cats);
    var head := if update || cats[0] !in s.saved then [cats[0]] else [];
    var tail := Needed(cats[1..], first.0.saved, update);
    NeededAfterFirst(s, cats, update, scrape);
    FirstFailureShift(head, tail, scrape);
    if c == cats[0] {
      WithinNeeded(cats[1..], first.0.saved, update, c);
      assert c !in tail[..FirstFailure(tail, scrape)];
    }
  }

  /** A failed aggregate stops at the first needed scrape that fails, with
      its error; the log and the saved tables are as FailureLogged and
      FailureSaved describe. */
  lemma {:induction false} FetchAllFails(s: Store, cats: seq<Category>, update: bool, scrape: Scrape, c: Category)
    decreases |cats|
    requires NoRepeats(cats)
    requires FetchAll(s, cats, update, scrape).1.Err?
    ensures FailureLogged(s, cats, update, scrape) && FailureSaved(s, cats, update, scrape, c)
  {
    var first := Fetch(s, cats[0], update, scrape);
    if first.1.Err? {
      FailsAtFirst(s, cats, update, scrape, c);
    } else {
      NoRepeatsTail(cats);
      FailedStepLater(s, cats, update, scrape);
      FetchAllFails(first.0, cats[1..], update, scrape, c);
      FailsLaterLogged(s, cats, update, scrape);
      FailsLaterSaved(s, cats, update, scrape, c);
    }
  }

  /** A category the group does not list is not needed. */
  lemma {:induction false} WithinNeeded(cats: seq<Category>, saved: map<Category, Table>, update: bool, c: Category)
    requires c !in cats
    ensures c !in Needed(cats, saved, update)
    decreases |cats|
  {
    if !update && cats != [] {
      WithinNeeded(cats[1..], saved, update, c);
    }
  }

  /** A category outside the group keeps what was saved for it. */
  lemma {:induction false} FetchAllFrame(s: Store, cats: seq<Category>, update: bool, scrape: Scrape, d: Category)
    decreases |cats|
    requires d !in cats
    ensures var s' := FetchAll(s, cats, update, scrape).0;
            (d in s'.saved <==> d in s.saved) && (d in s.saved ==> s'.saved[d] == s.saved[d])
  {
    if cats != [] {
      FetchAllFrame(Fetch(s, cats[0], update, scrape).0, cats[1..], update, scrape, d);
    }
  }

  /** After a successful aggregate each category of the group is saved: with
      a fresh scrape when updating or when nothing was saved, and with the
      table already saved otherwise; the dictionary holds that table. */
  lemma {:induction false} FetchAllEntry(s: Store, cats: seq<Category>, update: bool, scrape: Scrape, c: Category)
    decreases |cats|
    requires NoRepeats(cats) && c in cats
    requires FetchAll(s, cats, update, scrape).1.Ok?
    ensures var (s', r) := FetchAll(s, cats, update, scrape);
            && c in s'.saved && c in r.value && r.value[c] == s'.saved[c]
            && (update || c !in s.saved ==> scrape(c) == Ok(s'.saved[c]))
            && (!update && c in s.saved ==> s'.saved[c] == s.saved[c])
  {
    NoRepeatsTail(cats);
    var first := Fetch(s, cats[0], update, scrape);
    if c == cats[0] {
      FetchAllFrame(first.0, cats[1..], update, scrape, c);
    } else {
      FetchAllEntry(first.0, cats[1..], update, scrape, c);
    }
  }

  lemma NameInjective(c: Category, d: Category)
    requires Name(c) == Name(d)
    ensures c == d
  {
    NameRoundTrip(c);
    NameRoundTrip(d);
  }

  /** The dictionary has exactly the categories of the group as keys. */
  lemma {:induction false} FetchAllKeys(s: Store, cats: seq<Category>, update: bool, scrape: Scrape, k: Category)
    decreases |cats|
    requires FetchAll(s, cats, update, scrape).1.Ok?
    ensures k in FetchAll(s, cats, update, scrape).1.value <==> k in cats
  {
    if cats != [] {
      FetchAllKeys(Fetch(s, cats[0], update, scrape).0, cats[1..], update, scrape, k);
    }
  }

  /** Fetching a group again without updating, after a success, returns the
      same dictionary and scrapes nothing. */
  lemma {:induction false} FetchAllAgain(s: Store, cats: seq<Category>, update: bool, scrape: Scrape)
    decreases |cats|
    requires NoRepeats(cats)
    requires FetchAll(s, cats, update, scrape).1.Ok?
    ensures var (s', r) := FetchAll(s, cats, update, scrape);
            FetchAll(s', cats, false, scrape) == (s', r)
  {
    if cats != [] {
      NoRepeatsTail(cats);
      var first := Fetch(s, cats[0], update, scrape);
      FetchAllAgain(first.0, cats[1..], update, scrape);
      FetchAllFrame(first.0, cats[1..], update, scrape, cats[0]);
    }
  }

  /** The ticker's scraper, as far as its tables go: what is saved on disk,
      and every scrape it has made. */
  class TableCache {
    var saved: map<Category, Table>
    var scrapes: seq<Category>

    function State(): Store
      reads this
    {
      Store(saved, scrapes)
    }

    constructor (onDisk: map<Category, Table>)
      ensures saved == onDisk && scrapes == []
    {
      saved := onDisk;
      scrapes := [];
    }

    /** `update_*`: scrape, save on success, return the table. */
    method Update(c: Category, scrape: Scrape) returns (r: Result<Table, ScrapeError>)
      modifies this
      ensures (State(), r) == UpdateTable(old(State()), c, scrape)
    {
      r := scrape(c);
      scrapes := scrapes + [c];
      if r.Ok? {
        saved := saved[c := r.value];
      }
    }

    /** `get_*`: the saved table if there is one, else `update_*`. */
    method Get(c: Category, scrape: Scrape) returns (r: Result<Table, ScrapeError>)
      modifies this
      ensures (State(), r) == GetTable(old(State()), c, scrape)
    {
      if c in saved {
        return Ok(saved[c]);
      }
      r := Update(c, scrape);
    }

    /** The `update` flag of the aggregates: `update_*` when set, else
        `get_*`. */
    method GetOrUpdate(c: Category, update: bool, scrape: Scrape) returns (r: Result<Table, ScrapeError>)
      modifies this
      ensures (State(), r) == Fetch(old(State()), c, update, scrape)
    {
      if update {
        r := Update(c, scrape);
      } else {
        r := Get(c, scrape);
      }
    }

    /** The calls of an aggregate, in the group's order: each category is
        updated or fetched through the cache, and the first failure ends the
        aggregate with its error. */
    method GetGroup(cats: seq<Category>, update: bool, scrape: Scrape) returns (r: Result<map<Category, Table>, ScrapeError>)
      modifies this
      decreases |cats|
      ensures (State(), r) == FetchAll(old(State()), cats, update, scrape)
    {
      if cats == [] {
        return Ok(map[]);
      }
      var table :- GetOrUpdate(cats[0], update, scrape);
      var rest :- GetGroup(cats[1..], update, scrape);
      r := Ok(rest[cats[0] := table]);
    }

    /** `get_all_financial_statements`: the three tables of the financials
        page, updated or fetched through the cache. */
    method GetAllFinancialStatements(update: bool, scrape: Scrape) returns (r: Result<map<Category, Table>, ScrapeError>)
      modifies this
      ensures (State(), r) == FetchAll(old(State()), FinancialStatements, update, scrape)
      ensures r.Ok? ==> r.value.Keys == {IncomeStatement, BalanceSheet, CashFlow}
    {
      ghost var before := State();
      r := GetGroup(FinancialStatements, update, scrape);
      if r.Ok? {
        forall k: Category
          ensures k in r.value <==> k in FinancialStatements
        {
          FetchAllKeys(before, FinancialStatements, update, scrape, k);
        }
      }
    }

    /** `get_all_ratios_data`: the seven tables of the ratios page, updated
        or fetched through the cache. */
    method GetAllRatiosData(update: bool, scrape: Scrape) returns (r: Result<map<Category, Table>, ScrapeError>)
      modifies this
      ensures (State(), r) == FetchAll(old(State()), Ratios, update, scrape)
      ensures r.Ok? ==> r.value.Keys == {Profitability, Credit, Liquidity, WorkingCapital,
                                         EnterpriseValue, Multiples, PerShareData}
    {
      ghost var before := State();
      r := GetGroup(Ratios, update, scrape);
      if r.Ok? {
        forall k: Category
          ensures k in r.value <==> k in Ratios
        {
          FetchAllKeys(before, Ratios, update, scrape, k);
        }
      }
    }
  }
}
