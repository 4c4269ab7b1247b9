/** The feed cache and the feed handler of `src/main.rs`: a map from source
    name to its latest article list, written by the refresh step and read by
    the handler that renders a source's articles as RSS items. */
module Feeds {
  import opened Wrappers
  import opened Scraper

  /** An RSS `<guid>`: its value and whether it is a permalink. */
  datatype Guid = Guid(value: string, permalink: bool)

  /** An RSS `<item>`. The publication date keeps the article's `Date`; its
      RFC 2822 rendering is not part of this model. */
  datatype Item = Item(title: string, guid: Guid, link: string, pubDate: Date, content: string)

  /** An RSS `<channel>`: a title and its items, in order. */
  datatype Channel = Channel(title: string, items: seq<Item>)

  /** The one failure status of the feed handler. */
  datatype Status = NotFound

  /** The item the handler builds for one article. */
  function ItemOf(a: Article): Item {
    Item(a.headline, Guid(a.link, true), a.link, a.date, a.body)
  }

  /** The handler's `iter().map(..).collect()`: one item per article, in order. */
  function Items(articles: seq<Article>): (items: seq<Item>)
    ensures |items| == |articles|
    ensures forall i :: 0 <= i < |articles| ==>
              && items[i].title == articles[i].headline
              && items[i].guid == Guid(articles[i].link, true)
              && items[i].link == articles[i].link
              && items[i].pubDate == articles[i].date
              && items[i].content == articles[i].body
  {
    if articles == [] then [] else [ItemOf(articles[0])] + Items(articles[1..])
  }

  /** The feed handler for source `name`, given the cache's contents: not
      found when the source has no entry (which is not the same as an entry
      holding no articles), otherwise a channel titled by the source name with
      one item per cached article, in order. */
  function Render(feeds: map<string, seq<Article>>, name: string): (r: Result<Channel, Status>)
    ensures r.Err? <==> name !in feeds
    ensures r.Err? ==> r.error == NotFound
    ensures r.Ok? ==>
              && r.value.title == name
              && |r.value.items| == |feeds[name]|
              && forall i :: 0 <= i < |feeds[name]| ==>
                   && r.value.items[i].title == feeds[name][i].headline
                   && r.value.items[i].guid == Guid(feeds[name][i].link, true)
                   && r.value.items[i].link == feeds[name][i].link
                   && r.value.items[i].pubDate == feeds[name][i].date
                   && r.value.items[i].content == feeds[name][i].body
  {
    if name in feeds then Ok(Channel(name, Items(feeds[name]))) else Err(NotFound)
  }

  /** `Iterator::zip`: pairs by position, as long as the shorter input. */
  function Zip<A, B>(xs: seq<A>, ys: seq<B>): (pairs: seq<(A, B)>)
    ensures |pairs| == if |xs| <= |ys| then |xs| else |ys|
    ensures forall i :: 0 <= i < |pairs| ==> pairs[i] == (xs[i], ys[i])
  {
    if xs == [] || ys == [] then [] else [(xs[0], ys[0])] + Zip(xs[1..], ys[1..])
  }

  /** The cache after `insert`ing each pair in turn, keyed by scraper name. */
  function Committed(feeds: map<string, seq<Article>>, pairs: seq<(Scraper, seq<Article>)>): map<string, seq<Article>>
  {
    if pairs == [] then feeds
    else
      var last := pairs[|pairs| - 1];
      Committed(feeds, pairs[..|pairs| - 1])[last.0.name := last.1]
  }

  /** A commit leaves the entry of every name it does not write as it was,
      present or absent. */
  lemma {:induction false} CommittedElsewhere(feeds: map<string, seq<Article>>, pairs: seq<(Scraper, seq<Article>)>, name: string)
    requires forall i :: 0 <= i < |pairs| ==> pairs[i].0.name != name
    ensures name in Committed(feeds, pairs) <==> name in feeds
    ensures name in feeds ==> Committed(feeds, pairs)[name] == feeds[name]
  {
    if pairs != [] {
      CommittedElsewhere(feeds, pairs[..|pairs| - 1], name);
    }
  }

  /** The entry of a written name is the article list of the last pair
      carrying it, replacing whatever was there. */
  lemma {:induction false} CommittedLastWins(feeds: map<string, seq<Article>>, pairs: seq<(Scraper, seq<Article>)>, i: nat)
    requires i < |pairs|
    requires forall j :: i < j < |pairs| ==> pairs[j].0.name != pairs[i].0.name
    ensures pairs[i].0.name in Committed(feeds, pairs)
    ensures Committed(feeds, pairs)[pairs[i].0.name] == pairs[i].1
  {
    if i < |pairs| - 1 {
      CommittedLastWins(feeds, pairs[..|pairs| - 1], i);
    }
  }

  /** A commit adds exactly the names it writes to the cache's keys. */
  lemma {:induction false} CommittedKeys(feeds: map<string, seq<Article>>, pairs: seq<(Scraper, seq<Article>)>)
    ensures Committed(feeds, pairs).Keys == feeds.Keys + set i | 0 <= i < |pairs| :: pairs[i].0.name
  {
    if pairs != [] {
      var init := pairs[..|pairs| - 1];
      CommittedKeys(feeds, init);
      var names := set i | 0 <= i < |pairs| :: pairs[i].0.name;
      var initNames := set i | 0 <= i < |init| :: init[i].0.name;
      assert names == initNames + {pairs[|pairs| - 1].0.name} by {
        forall n | n in names ensures n in initNames + {pairs[|pairs| - 1].0.name} {
          var i :| 0 <= i < |pairs| && pairs[i].0.name == n;
          if i < |pairs| - 1 { assert init[i] == pairs[i]; }
        }
        forall n | n in initNames ensures n in names {
          var i :| 0 <= i < |init| && init[i].0.name == n;
          assert pairs[i] == init[i];
        }
      }
    }
  }

  /** The names of a scraper list are distinct. */
  predicate DistinctNames(scrapers: seq<Scraper>) {
    forall i, j :: 0 <= i < j < |scrapers| ==> scrapers[i].name != scrapers[j].name
  }

  /** After committing one result per scraper, each scraper's entry is the
      result in its own position, and every other entry is as it was. */
  lemma CommitByPosition(feeds: map<string, seq<Article>>, scrapers: seq<Scraper>, results: seq<seq<Article>>, name: string)
    requires |results| == |scrapers| && DistinctNames(scrapers)
    ensures forall i :: 0 <= i < |scrapers| ==>
              && scrapers[i].name in Committed(feeds, Zip(scrapers, results))
              && Committed(feeds, Zip(scrapers, results))[scrapers[i].name] == results[i]
              && Render(Committed(feeds, Zip(scrapers, results)), scrapers[i].name)
                   == Ok(Channel(scrapers[i].name, Items(results[i])))
    ensures (forall i :: 0 <= i < |scrapers| ==> scrapers[i].name != name) ==>
              Render(Committed(feeds, Zip(scrapers, results)), name) == Render(feeds, name)
  {
    var pairs := Zip(scrapers, results);
    forall i | 0 <= i < |scrapers|
      ensures scrapers[i].name in Committed(feeds, pairs)
      ensures Committed(feeds, pairs)[scrapers[i].name] == results[i]
    {
      CommittedLastWins(feeds, pairs, i);
    }
    if forall i :: 0 <= i < |scrapers| ==> scrapers[i].name != name {
      CommittedElsewhere(feeds, pairs, name);
    }
  }

  /** `try_join_all` over every scraper's `get_articles`. */
  function GetAllArticles(scrapers: seq<Scraper>, env: Env): (r: Result<seq<seq<Article>>, Error>)
    requires forall s :: s in scrapers ==> BaseParses(s, env)
    ensures r.Ok? <==> forall i :: 0 <= i < |scrapers| ==> GetArticles(scrapers[i], env).Ok?
    ensures r.Ok? ==> |r.value| == |scrapers|
                      && forall i :: 0 <= i < |scrapers| ==> GetArticles(scrapers[i], env) == Ok(r.value[i])
    ensures r.Err? ==> exists i :: 0 <= i < |scrapers| && GetArticles(scrapers[i], env) == Err(r.error)
  {
    TryJoinAll(scrapers, (s: Scraper) requires BaseParses(s, env) => GetArticles(s, env))
  }

  /** The shared cache (`Arc<Mutex<HashMap<&str, Vec<Article>>>>`). The mutex
      makes each of its methods one atomic step. */
  class FeedCache {
    var feeds: map<string, seq<Article>>

    /** The cache starts with no entries. */
    constructor ()
      ensures feeds == map[]
    {
      feeds := map[];
    }

    /** The commit step of `scrape`: insert each scraper's result under its
        name, pairing scrapers and results by position. */
    method Commit(scrapers: seq<Scraper>, results: seq<seq<Article>>)
      modifies this
      ensures feeds == Committed(old(feeds), Zip(scrapers, results))
    {
      var pairs := Zip(scrapers, results);
      for i := 0 to |pairs|
        invariant feeds == Committed(old(feeds), pairs[..i])
      {
        assert pairs[..i + 1][..i] == pairs[..i];
        feeds := feeds[pairs[i].0.name := pairs[i].1];
      }
      assert pairs[..|pairs|] == pairs;
    }

    /** One cycle of `scrape`: extract every source; if any source fails the
        cycle ends with that error and the cache is untouched, otherwise every
        source's entry is replaced. */
    method Refresh(scrapers: seq<Scraper>, env: Env) returns (r: Result<(), Error>)
      requires forall s :: s in scrapers ==> BaseParses(s, env)
      modifies this
      ensures GetAllArticles(scrapers, env).Err? ==>
                r == Err(GetAllArticles(scrapers, env).error) && feeds == old(feeds)
      ensures GetAllArticles(scrapers, env).Ok? ==>
                r == Ok(()) && feeds == Committed(old(feeds), Zip(scrapers, GetAllArticles(scrapers, env).value))
    {
      var all := GetAllArticles(scrapers, env);
      if all.Err? {
        return Err(all.error);
      }
      Commit(scrapers, all.value);
      r := Ok(());
    }

    /** The feed handler: read the cache and render the named source. */
    method Serve(name: string) returns (r: Result<Channel, Status>)
      ensures r == Render(feeds, name)
    {
      r := Render(feeds, name);
    }
  }

  /** Two requests with no commit between them are answered alike. */
  method ServeTwice(cache: FeedCache, name: string) returns (first: Result<Channel, Status>, second: Result<Channel, Status>)
    ensures first == second
  {
    first := cache.Serve(name);
    second := cache.Serve(name);
  }

  /** Before the first refresh, a request for the RTE feed is not found
      rather than answered with an empty feed. */
  method RequestBeforeRefresh(parseDate: string -> Result<Date, Error>) returns (r: Result<Channel, Status>)
    ensures r == Err(NotFound)
  {
    var cache := new FeedCache();
    r := cache.Serve(Rte(parseDate).name);
  }
}
