/** Where the natural contract of an operation is false, and exactly when it holds. */
module EdgeCases {
  import opened Types
  import opened Store
  import opened Publisher
  import opened PublisherInvariants
  import opened Effects

  // ----- A stage that falls -----

  /** An execution event projects the record anew: it is known, its projection was evicted, and its
      parent's projection is at hand. */
  predicate Reprojects(p: State, g: Generation, block: BlockMeta) {
    && g == Active(p) && block.hash !in p.store.tombstones
    && block.hash in p.store.candidates && !Held(p.store, block.hash) && Held(p.store, block.parent)
  }

  /** A validated record falls back to executed exactly when an execution event projects it anew, so
      its stage is safe while its projection is held. */
  lemma StageFallsExactly(env: Env, p: State, g: Generation, block: BlockMeta, now: Time)
    requires Valid(env, p) && !p.broken && block == env.chain.meta(block.hash)
    requires block.hash in p.store.candidates && p.store.candidates[block.hash].stage == Validated
    ensures var o := ProjectCandidate(env, p, g, block, env.chain.delta(g, block.hash), Executed, false, now);
            o.ok ==> block.hash in o.state.store.candidates
                     && (o.state.store.candidates[block.hash].stage == Executed <==> Reprojects(p, g, block))
  {
    hide Valid, PublishCandidate, InsertDeferred, PromoteKnown, ParentValues;
    if Wanted(p, g, block) {
      ProjectionActs(env, p, block, Executed, false, now);
      KnownIsNotDeferred(env, p, block, env.chain.delta(g, block.hash), now);
    }
  }
}
