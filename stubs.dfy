/**
 * `Stubs`: the table of canned responses the development profile serves,
 * keyed by URL and updated in place. A stored `null` provider is an entry
 * whose value is `None`.
 */
module StubTable {
  import opened Wrappers

  /** `Optional.ofNullable(map.get(url))`: a missing key and a stored null both read as empty. */
  function Lookup<P>(table: map<string, Option<P>>, url: string): (r: Option<P>)
    ensures r.Some? <==> url in table && table[url].Some?
    ensures r.Some? ==> table[url] == r
  {
    if url in table then table[url] else None
  }

  /** What was put under a URL is what is read back, a stored null included. */
  lemma LookupAfterPut<P>(table: map<string, Option<P>>, url: string, provider: Option<P>)
    ensures Lookup(table[url := provider], url) == provider
  {
  }

  /** Putting under one URL leaves every other URL as it was. */
  lemma LookupOtherAfterPut<P>(table: map<string, Option<P>>, url: string, provider: Option<P>, other: string)
    requires other != url
    ensures Lookup(table[url := provider], other) == Lookup(table, other)
  {
  }

  /** Putting twice under one URL keeps only the second provider. */
  lemma PutReplaces<P>(table: map<string, Option<P>>, url: string, first: Option<P>, second: Option<P>)
    ensures table[url := first][url := second] == table[url := second]
  {
  }

  class Stubs<P> {
    var stubbedResponses: map<string, Option<P>>

    /** A new table is empty. */
    constructor()
      ensures stubbedResponses == map[]
    {
      stubbedResponses := map[];
    }

    /** `put`: stores the provider under the URL, replacing what was there. */
    method Put(url: string, stubProvider: Option<P>)
      modifies this
      ensures stubbedResponses == old(stubbedResponses)[url := stubProvider]
      ensures Get(url) == stubProvider
      ensures forall other :: other != url ==> Get(other) == old(Get(other))
    {
      stubbedResponses := stubbedResponses[url := stubProvider];
    }

    /** `get`: the provider stored under the URL, if any and not null. */
    function Get(url: string): (r: Option<P>)
      reads this
    {
      Lookup(stubbedResponses, url)
    }

    /** `getAllStubs`: a copy of the table, a value that later puts cannot reach. */
    method GetAllStubs() returns (all: map<string, Option<P>>)
      ensures all == stubbedResponses
      ensures forall url :: Lookup(all, url) == Get(url)
    {
      all := stubbedResponses;
    }
  }

  /** A copy taken before a put still holds the table as it was before the put. */
  method CopyBeforePut<P>(stubs: Stubs<P>, url: string, stubProvider: Option<P>) returns (copy: map<string, Option<P>>)
    modifies stubs
    ensures copy == old(stubs.stubbedResponses)
    ensures stubs.Get(url) == stubProvider
    ensures url !in copy ==> Lookup(copy, url) == None
  {
    copy := stubs.GetAllStubs();
    stubs.Put(url, stubProvider);
  }
}
