/** The create command and the get query wired to one shared repository. */
module ShortenerApp {
  import opened Wrappers
  import opened IdProviders
  import opened InMemoryRepositories
  import opened CreateShortUrl
  import opened GetFullUrl

  /**
   * Creating a short URL and then querying the id it answered gives back the
   * original URL, whatever the store held before.
   */
  method CreateAndGet(id: string, fullUrl: string, initial: map<string, string>)
    returns (created: Result<string>, fetched: Result<string>)
    ensures created.Ok?
    ensures fetched == Ok(fullUrl)
  {
    var idp := new FakeIdProvider(id);
    var repo := new InMemoryRepository(initial);
    var createCommand := new CreateShortUrlCommand(idp, repo);
    var getQuery := new GetFullUrlQuery(repo);
    created := createCommand.Execute(fullUrl);
    fetched := getQuery.Execute(created.value);
  }
}
