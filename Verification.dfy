/**
 * The three verification registries the invite form consults: Discord and
 * Matrix keep maps from PIN to identity, Telegram keeps a slice of verified
 * tokens searched front to back and removed by swapping with the last entry.
 */
module Verification {
  import opened Records

  /** app.discord: every PIN present in verifiedTokens has been confirmed by the bot. */
  class DiscordDaemon {
    var verifiedTokens: map<string, DiscordUser>

    constructor (tokens: map<string, DiscordUser>)
      ensures verifiedTokens == tokens
    {
      verifiedTokens := tokens;
    }
  }

  /** app.matrix: PINs sent to a Matrix user, marked Verified once the user confirms them. */
  class MatrixDaemon {
    var tokens: map<string, PendingMatrixUser>

    constructor (pending: map<string, PendingMatrixUser>)
      ensures tokens == pending
    {
      tokens := pending;
    }
  }

  /** app.telegram: the verified tokens, in the order the bot received them, and each chat's language. */
  class TelegramDaemon {
    var verifiedTokens: seq<VerifiedToken>
    var languages: map<int, string>

    constructor (tokens: seq<VerifiedToken>, langs: map<int, string>)
      ensures verifiedTokens == tokens && languages == langs
    {
      verifiedTokens := tokens;
      languages := langs;
    }

    /** Swap the entry at `index` with the last one, then drop the last slot. */
    method SwapRemove(index: int)
      requires 0 <= index < |verifiedTokens|
      modifies this`verifiedTokens
      ensures verifiedTokens == SwapRemoved(old(verifiedTokens), index)
    {
      var last := |verifiedTokens| - 1;
      var t := verifiedTokens[index];
      verifiedTokens := verifiedTokens[index := verifiedTokens[last]][last := t];
      verifiedTokens := verifiedTokens[..last];
    }
  }

  /** The first index whose token equals `pin`, or -1 when there is none. */
  function TokenIndex(tokens: seq<VerifiedToken>, pin: string): (i: int)
    ensures -1 <= i < |tokens|
    ensures i == -1 <==> forall j :: 0 <= j < |tokens| ==> tokens[j].token != pin
    ensures i >= 0 ==> tokens[i].token == pin && forall j :: 0 <= j < i ==> tokens[j].token != pin
  {
    if tokens == [] then -1
    else if tokens[0].token == pin then 0
    else
      var r := TokenIndex(tokens[1..], pin);
      if r == -1 then -1 else r + 1
  }

  /** The Telegram lookup loop of newUser, TelegramAddUser and TelegramVerified*: a linear first-match search. */
  method FindToken(tokens: seq<VerifiedToken>, pin: string) returns (index: int)
    ensures index == TokenIndex(tokens, pin)
  {
    index := -1;
    var i := 0;
    while i < |tokens|
      invariant 0 <= i <= |tokens|
      invariant forall j :: 0 <= j < i ==> tokens[j].token != pin
    {
      if tokens[i].token == pin {
        index := i;
        return;
      }
      i := i + 1;
    }
  }

  /** The slice after swap-with-last and truncation. */
  function SwapRemoved(s: seq<VerifiedToken>, i: int): seq<VerifiedToken>
    requires 0 <= i < |s|
  {
    s[i := s[|s| - 1]][..|s| - 1]
  }

  /** Swap-removal drops exactly the entry at `i`: one shorter, and the multiset of the rest is kept. */
  lemma SwapRemovedDropsOne(s: seq<VerifiedToken>, i: int)
    requires 0 <= i < |s|
    ensures |SwapRemoved(s, i)| == |s| - 1
    ensures multiset(SwapRemoved(s, i)) == multiset(s) - multiset{s[i]}
  {
    var last := |s| - 1;
    var r := SwapRemoved(s, i);
    if i == last {
      assert s == r + [s[i]];
    } else {
      var init := s[..last];
      assert s == init + [s[last]];
      assert r == init[i := s[last]];
      assert s[i] == init[i];
      assert multiset(r) == multiset(init) - multiset{s[i]} + multiset{s[last]};
      assert multiset(s) == multiset(init) + multiset{s[last]};
    }
  }
}
