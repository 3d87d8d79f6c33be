/**
 The promotion fence that every worker transaction locks: one live owner, replaced by a promotion or a recovery, which
 raise the token, or once, at the initial activation, under the same token.
 */
module Fencing {
  datatype Fence = Fence(generation: string, token: nat, promotion: nat, owner: string)

  /** `activated` says whether a recovery was ever recorded; only before that can the initial activation happen. */
  datatype LiveFence = LiveFence(fence: Fence, expiresAt: int, activated: bool)

  predicate IsLive(live: LiveFence, fence: Fence, now: int) {
    live.fence == fence && live.expiresAt > now
  }

  /** The initial activation keeps generation, token and promotion and replaces the owner. */
  predicate InitialActivation(before: LiveFence, after: LiveFence) {
    && !before.activated && after.activated && before.fence.token == 1 && before.fence.promotion == 0
    && after.fence == before.fence.(owner := after.fence.owner)
  }

  /** A promotion or recovery raises the token; a renewal only moves the lease of the same owner. */
  predicate Succeeds(before: LiveFence, after: LiveFence) {
    && (before.activated ==> after.activated)
    && (after.fence == before.fence || after.fence.token > before.fence.token || InitialActivation(before, after))
  }

  /** No fence that was live before comes back once another one is. */
  predicate NotAhead(fence: Fence, live: LiveFence) {
    fence == live.fence || fence.token < live.fence.token || (fence.token == live.fence.token && live.activated)
  }

  lemma SucceedsTrans(a: LiveFence, b: LiveFence, c: LiveFence)
    requires Succeeds(a, b) && Succeeds(b, c)
    ensures Succeeds(a, c)
  {
  }

  /** A fence no newer than the live one stays so, and once superseded it is never live again. */
  lemma SupersededForGood(fence: Fence, before: LiveFence, after: LiveFence)
    requires NotAhead(fence, before) && Succeeds(before, after)
    ensures NotAhead(fence, after)
    ensures fence != before.fence ==> fence != after.fence
  {
  }

  /** What a fence may become: renewed, replaced under a higher token, or activated once; and nothing else. */
  lemma WhatMaySucceed(before: LiveFence, after: LiveFence)
    ensures after.fence == before.fence && after.activated == before.activated ==> Succeeds(before, after)
    ensures after.fence.token > before.fence.token && after.activated ==> Succeeds(before, after)
    ensures after.fence != before.fence && after.fence.token <= before.fence.token ==>
              (Succeeds(before, after) <==>
                 && !before.activated && after.activated && before.fence.token == 1 && before.fence.promotion == 0
                 && after.fence.generation == before.fence.generation && after.fence.token == 1 && after.fence.promotion == 0)
  {
  }
}
