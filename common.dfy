/**
 * The generic chained-builder mechanism: a child builder is paired with the
 * parent builder that will receive it, the pair is used in place of the
 * child while the child is configured, and completing the chain hands the
 * child to the parent's `consume`.
 *
 * The `ConsumeBuilder<Builder>` trait is modelled by passing the parent's
 * `consume` as a function `(R, B) -> R`, so everything here holds for every
 * parent type and every implementation of `consume`.
 */
module Common {

  /** `ChainedBuilder<Builder, Result>`: the child `builder` and the parent `result`. */
  class ChainedBuilder<B, R> {
    var builder: B
    var result: R

    /** `ChainedBuilder::new`: stores both builders as given. */
    constructor (builder: B, result: R)
      ensures this.builder == builder && this.result == result
    {
      this.builder := builder;
      this.result := result;
    }

    /** `Deref::deref`: the chain reads as its child builder. */
    function Deref(): (b: B)
      reads this
      ensures b == builder
    {
      builder
    }

    /**
     * `DerefMut::deref_mut` together with what the caller does through the
     * `&mut Builder` it hands out: `edit` is that change, applied to the
     * child in place. The parent stays as it was.
     */
    method DerefMut(edit: B -> B)
      modifies this`builder
      ensures builder == edit(old(builder))
      ensures result == old(result)
    {
      builder := edit(builder);
    }

    /** `complete_chain`: the parent consumes the child, and that is the result. */
    method CompleteChain(consume: (R, B) -> R) returns (r: R)
      ensures r == consume(result, builder)
    {
      r := consume(result, builder);
    }
  }

  /**
   * For every parent type and every `consume`: building a chain, editing the
   * child through `deref_mut` and completing the chain gives what consuming
   * the edited child into the original, untouched parent gives.
   */
  method CompleteAfterEdit<B, R>(child: B, parent: R, edit: B -> B, consume: (R, B) -> R) returns (r: R)
    ensures r == consume(parent, edit(child))
  {
    var chain := new ChainedBuilder(child, parent);
    chain.DerefMut(edit);
    r := chain.CompleteChain(consume);
  }
}
