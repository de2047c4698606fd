/**
 * The create command: take a fresh id from the provider, save `id -> full URL`
 * in the repository and answer the id, handing back the repository's error
 * unchanged if saving fails.
 */
module CreateShortUrl {
  import opened Wrappers
  import opened IdProviders
  import opened InMemoryRepositories

  /**
   * The `?` in `execute`: a failed save answers its own error, a successful
   * one answers the id.
   */
  function Propagate(saved: Result<()>, id: string): (r: Result<string>)
    ensures r.Ok? <==> saved.Ok?
    ensures r.Ok? ==> r.value == id
    ensures r.Err? ==> r.error == saved.error
  {
    match saved
    case Ok(_) => Ok(id)
    case Err(e) => Err(e)
  }

  class CreateShortUrlCommand {
    const idProvider: FakeIdProvider
    const repo: InMemoryRepository

    constructor (idProvider: FakeIdProvider, repo: InMemoryRepository)
      ensures this.idProvider == idProvider && this.repo == repo
    {
      this.idProvider := idProvider;
      this.repo := repo;
    }

    /**
     * `execute`: answers the provider's id and leaves the repository mapping
     * that id to `fullUrl`, every other key unchanged.
     */
    method Execute(fullUrl: string) returns (r: Result<string>)
      modifies repo
      ensures r == Ok(idProvider.id)
      ensures repo.store == old(repo.store)[idProvider.id := fullUrl]
    {
      var id := idProvider.Provide();
      var saved := repo.Save(fullUrl, id);
      r := Propagate(saved, id);
    }
  }

  /** A command with a fake provider holding "123" answers `Ok("123")`, never `Ok("")`. */
  method ExecuteWithFakeId(fullUrl: string) returns (result: Result<string>)
    ensures result == Ok("123")
    ensures result != Ok("")
  {
    var idp := new FakeIdProvider("123");
    var repo := new InMemoryRepository(map[]);
    var command := new CreateShortUrlCommand(idp, repo);
    result := command.Execute(fullUrl);
  }

  /** One `execute` on an empty store leaves exactly one entry: the answered id, mapped to `fullUrl`. */
  method ExecuteOnEmptyStore(id: string, fullUrl: string) returns (shortUrl: string, store: map<string, string>)
    ensures |store| == 1
    ensures shortUrl in store && store[shortUrl] == fullUrl
  {
    var idp := new FakeIdProvider(id);
    var repo := new InMemoryRepository(map[]);
    var command := new CreateShortUrlCommand(idp, repo);
    var result := command.Execute(fullUrl);
    shortUrl := result.value;
    store := repo.store;
    assert store.Keys == {id};
  }
}
