/** The statistics cards of the token page: how many tokens there are, how
    many are enabled and how many disabled. */
module TokenStats {
  import opened Wrappers

  /** A token as the server lists it. */
  datatype TokenSummary = TokenSummary(
    projectId: Option<string>,
    email: Option<string>,
    accessTokenSuffix: string,
    refreshToken: string,
    enable: bool)

  datatype Counts = Counts(total: nat, enabled: nat, disabled: nat)

  /** The number of tokens whose enable flag equals state. */
  function CountWithState(tokens: seq<TokenSummary>, state: bool): (n: nat)
    ensures n <= |tokens|
  {
    if tokens == [] then 0
    else CountWithState(tokens[1..], state) + (if tokens[0].enable == state then 1 else 0)
  }

  /** Every token is either enabled or disabled. */
  lemma {:induction false} EnabledPlusDisabled(tokens: seq<TokenSummary>)
    ensures CountWithState(tokens, true) + CountWithState(tokens, false) == |tokens|
  {
    if tokens != [] {
      EnabledPlusDisabled(tokens[1..]);
    }
  }

  /** No token is counted as enabled exactly when none has the flag set. */
  lemma {:induction false} NoneEnabled(tokens: seq<TokenSummary>)
    ensures CountWithState(tokens, true) == 0 <==> forall i | 0 <= i < |tokens| :: !tokens[i].enable
  {
    if tokens != [] {
      NoneEnabled(tokens[1..]);
      assert forall i | 1 <= i < |tokens| :: tokens[i] == tokens[1..][i - 1];
    }
  }

  /** The three figures the cards show. */
  function Stats(tokens: seq<TokenSummary>): (c: Counts)
    ensures c.total == |tokens|
    ensures c.enabled + c.disabled == c.total
  {
    EnabledPlusDisabled(tokens);
    Counts(|tokens|, CountWithState(tokens, true), CountWithState(tokens, false))
  }
}
