/**
 * The URL shortener's in-memory repository: a map from short id to full URL,
 * shared by the create command and the get query.
 */
module InMemoryRepositories {
  import opened Wrappers

  /** The error text `get` returns for an unknown short id. */
  const NOT_FOUND: string := "Not Found"

  class InMemoryRepository {
    var store: map<string, string>

    constructor (store: map<string, string>)
      ensures this.store == store
    {
      this.store := store;
    }

    /**
     * `save`: maps `shortUrl` to `fullUrl`, replacing any earlier mapping of
     * that key and leaving every other key as it was. It never fails.
     */
    method Save(fullUrl: string, shortUrl: string) returns (r: Result<()>)
      modifies this
      ensures r == Ok(())
      ensures shortUrl in store && store[shortUrl] == fullUrl
      ensures store.Keys == old(store).Keys + {shortUrl}
      ensures forall k :: k in old(store) && k != shortUrl ==> store[k] == old(store)[k]
    {
      store := store[shortUrl := fullUrl];
      r := Ok(());
    }

    /** `get`: the URL stored under `shortUrl`, or `Err("Not Found")` when there is none. */
    function Get(shortUrl: string): (r: Result<string>)
      reads this
      ensures r.Ok? <==> shortUrl in store
      ensures r.Ok? ==> r.value == store[shortUrl]
      ensures r.Err? ==> r.error == NOT_FOUND
    {
      if shortUrl in store then Ok(store[shortUrl]) else Err(NOT_FOUND)
    }
  }

  /** A `get` right after a `save` of the same key returns the saved URL; other keys answer as before. */
  method SaveThenGet(repo: InMemoryRepository, fullUrl: string, shortUrl: string)
    modifies repo
    ensures repo.Get(shortUrl) == Ok(fullUrl)
    ensures forall k :: k != shortUrl ==> repo.Get(k) == old(repo.Get(k))
  {
    var saved := repo.Save(fullUrl, shortUrl);
  }
}
