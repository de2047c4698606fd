/**
 * The get query: looks a short id up in the repository and answers its
 * result, found or not.
 */
module GetFullUrl {
  import opened Wrappers
  import opened InMemoryRepositories

  class GetFullUrlQuery {
    const repo: InMemoryRepository

    constructor (repo: InMemoryRepository)
      ensures this.repo == repo
    {
      this.repo := repo;
    }

    /**
     * `execute`: the URL stored under `shortUrl`, or the repository's
     * `Err("Not Found")`; a read that changes nothing.
     */
    function Execute(shortUrl: string): (r: Result<string>)
      reads this, repo
      ensures shortUrl in repo.store ==> r == Ok(repo.store[shortUrl])
      ensures shortUrl !in repo.store ==> r == Err(NOT_FOUND)
    {
      repo.Get(shortUrl)
    }
  }

  /** Two keys stored side by side each answer their own URL. */
  method LookupTwoKeys() returns (result1: Result<string>, result2: Result<string>)
    ensures result1 == Ok("https://google.com")
    ensures result2 == Ok("https://github.com")
  {
    var repo := new InMemoryRepository(map["123" := "https://google.com", "456" := "https://github.com"]);
    var query := new GetFullUrlQuery(repo);
    result1 := query.Execute("123");
    result2 := query.Execute("456");
  }
}
