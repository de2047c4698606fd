/**
 * The id provider used by the create command. Only the fake provider, which
 * hands out a settable fixed id, is modelled; the random nanoid provider is
 * not part of this model.
 */
module IdProviders {
  class FakeIdProvider {
    var id: string

    constructor (id: string)
      ensures this.id == id
    {
      this.id := id;
    }

    /** `set_id`: every later `provide` returns `id`. */
    method SetId(id: string)
      modifies this
      ensures this.id == id
    {
      this.id := id;
    }

    /** `provide`: the id currently held; reading it changes nothing. */
    function Provide(): (r: string)
      reads this
      ensures r == id
    {
      id
    }
  }

  /**
   * A provider asked twice in a row gives the same id both times, and after
   * `set_id(x)` it gives `x`.
   */
  method ProvideRepeatsUntilSet(p: FakeIdProvider, x: string) returns (first: string, second: string, afterSet: string)
    modifies p
    ensures first == second == old(p.id)
    ensures afterSet == x
  {
    first := p.Provide();
    second := p.Provide();
    p.SetId(x);
    afterSet := p.Provide();
  }
}
