/** The swap panel of the exchange front end: which actions its current
    snapshot allows, which button and message it shows, the requests it sends
    to the wallet, and the component state that its handlers and its
    auto-reset effect update. */
module Exchange {
  import opened Wrappers
  import JsText

  /** A token or contract address, an opaque identifier. */
  type Address = string

  /** The Uniswap V2 router the panel approves and swaps through (src/config.js). */
  const RouterAddress: Address := "0x756D6E08Be7C15f6045e87CeA0D9d03bfba87592"

  /** `ethers.constants.MaxUint256`, 2^256 - 1. */
  const MaxUint256: nat := 0xFFFF_FFFF_FFFF_FFFF_FFFF_FFFF_FFFF_FFFF_FFFF_FFFF_FFFF_FFFF_FFFF_FFFF_FFFF_FFFF

  /** Seconds added to the current time to form a swap's deadline (20 minutes). */
  const DeadlineSeconds: nat := 60 * 20

  /** The decimal parser, taken as given: `None` when it throws, otherwise the
      integer amount in the token's smallest unit. */
  type Parser = string -> Option<int>

  // ---------------------------------------------------------------------------
  // Eligibility: a pure function of one render's snapshot
  // ---------------------------------------------------------------------------

  /** What one render pass reads. `allowance` and `balance` are `None` while the
      wallet hooks have no value yet; the pending flags come from the two
      contract calls' lifecycle states. */
  datatype Snapshot = Snapshot(
    amount: int,
    allowance: Option<nat>,
    balance: Option<nat>,
    isApproving: bool,
    isSwapping: bool)

  /** The five flags the panel derives from a snapshot. */
  datatype Eligibility = Eligibility(
    approvedNeeded: bool,
    formValueIsGreaterThan0: bool,
    hasEnoughBalance: bool,
    canApprove: bool,
    canSwap: bool)

  /** The flags of one render. A missing allowance or balance counts as zero.
      Approving and swapping are never both possible; a swap is possible exactly
      when no swap is pending and the amount is positive and covered by both the
      allowance and the balance, so each failing guard blocks it on its own. */
  function Evaluate(s: Snapshot): (e: Eligibility)
    ensures !(e.canApprove && e.canSwap)
    ensures e.canSwap <==>
      !s.isSwapping && 0 < s.amount && s.amount <= s.allowance.GetOr(0) && s.amount <= s.balance.GetOr(0)
    ensures s.amount <= 0 ==> !e.canSwap && !e.approvedNeeded && e.hasEnoughBalance
    ensures e.approvedNeeded ==> !e.canSwap && e.formValueIsGreaterThan0
    ensures s.isSwapping ==> !e.canSwap
    ensures !e.hasEnoughBalance ==> !e.canSwap && e.formValueIsGreaterThan0
    ensures e.canApprove <==> !s.isApproving && s.amount > s.allowance.GetOr(0)
    ensures s.allowance == None ==> (e.approvedNeeded <==> s.amount > 0)
    ensures s.balance == None ==> (e.hasEnoughBalance <==> s.amount <= 0)
    ensures e.approvedNeeded <==> s.amount > s.allowance.GetOr(0)
    ensures e.hasEnoughBalance <==> s.amount <= s.balance.GetOr(0)
    ensures e.formValueIsGreaterThan0 <==> s.amount > 0
    ensures e.canApprove ==> e.approvedNeeded
  {
    var approvedNeeded := s.amount > s.allowance.GetOr(0);
    var formValueIsGreaterThan0 := s.amount > 0;
    var hasEnoughBalance := s.amount <= s.balance.GetOr(0);
    var canApprove := !s.isApproving && approvedNeeded;
    var canSwap := !s.isSwapping && hasEnoughBalance && formValueIsGreaterThan0 && !approvedNeeded;
    Eligibility(approvedNeeded, formValueIsGreaterThan0, hasEnoughBalance, canApprove, canSwap)
  }

  // ---------------------------------------------------------------------------
  // Button and message selection
  // ---------------------------------------------------------------------------

  /** The single action button: which one is shown, whether it is enabled and
      its caption. */
  datatype Button =
    | ApproveButton(enabled: bool, caption: string)
    | SwapButton(enabled: bool, caption: string)

  /** What a click on the shown button does. A disabled button does nothing. */
  datatype Click = NoRequest | RequestApprove | RequestSwap

  /** The button of one render. The approve button is shown exactly when approval
      is needed and no swap is pending; an enabled button always offers an
      action its guard allows, and a pending swap always shows a disabled
      "Swapping..." button. */
  function SelectButton(s: Snapshot): (b: Button)
    ensures b.ApproveButton? <==> Evaluate(s).approvedNeeded && !s.isSwapping
    ensures b.ApproveButton? ==> (b.enabled <==> Evaluate(s).canApprove)
    ensures b.SwapButton? ==> (b.enabled <==> Evaluate(s).canSwap)
    ensures b.ApproveButton? ==> b.caption == (if s.isApproving then "Approving..." else "Approve")
    ensures b.SwapButton? && s.isSwapping ==> b.caption == "Swapping..." && !b.enabled
    ensures b.SwapButton? && !s.isSwapping ==>
      b.caption == (if s.amount <= s.balance.GetOr(0) then "Swap" else "Insufficient balance")
    ensures b.enabled && b.ApproveButton? ==> !s.isApproving && !s.isSwapping && s.amount > s.allowance.GetOr(0)
    ensures b.enabled && b.SwapButton? ==> b.caption == "Swap"
  {
    var e := Evaluate(s);
    if e.approvedNeeded && !s.isSwapping then
      ApproveButton(e.canApprove, if s.isApproving then "Approving..." else "Approve")
    else
      SwapButton(e.canSwap,
                 if s.isSwapping then "Swapping..."
                 else if e.hasEnoughBalance then "Swap"
                 else "Insufficient balance")
  }

  /** The request a click on the shown button sends. A swap is requested exactly
      when the swap guard holds; an approval exactly when approving is possible
      and no swap is pending. */
  function ClickButton(s: Snapshot): (c: Click)
    ensures c == RequestSwap <==> Evaluate(s).canSwap
    ensures c == RequestApprove <==> Evaluate(s).canApprove && !s.isSwapping
    ensures c != NoRequest ==> s.amount > 0
  {
    match SelectButton(s)
    case ApproveButton(enabled, _) => if enabled then RequestApprove else NoRequest
    case SwapButton(enabled, _) => if enabled then RequestSwap else NoRequest
  }

  /** JavaScript truthiness of a message: present and not the empty string. */
  predicate Shows(m: Option<string>)
  {
    m.Some? && m.value != ""
  }

  /** The message line of one render. A failure is shown until the first
      auto-reset; after it, only a success message can be shown; without either
      message nothing is shown. */
  function DisplayedMessage(failure: Option<string>, success: Option<string>, resetState: bool): (m: Option<string>)
    ensures m.Some? ==> m.value != "" && (m == failure || m == success)
    ensures Shows(failure) && !resetState ==> m == failure
    ensures (resetState || !Shows(failure)) ==> m == (if Shows(success) then success else None)
    ensures !Shows(failure) && !Shows(success) ==> m == None
  {
    if Shows(failure) && !resetState then failure
    else if Shows(success) then success
    else None
  }

  // ---------------------------------------------------------------------------
  // Requests sent to the contracts
  // ---------------------------------------------------------------------------

  /** Arguments of the token's `approve(spender, amount)`. */
  datatype ApproveArgs = ApproveArgs(spender: Address, amount: nat)

  /** Arguments of the router's `swapExactTokensForTokens`. */
  datatype SwapArgs = SwapArgs(
    amountIn: int,
    amountOutMin: nat,
    path: seq<Address>,
    recipient: Option<Address>,
    deadline: int)

  /** The approval always grants the router the largest uint256 allowance, so
      once it is in place no uint256 amount needs approval any more. */
  function ApproveRequest(): (r: ApproveArgs)
    ensures r.spender == RouterAddress && r.amount == MaxUint256
    ensures forall s: Snapshot :: s.allowance == Some(r.amount) && s.amount <= MaxUint256 ==>
      !Evaluate(s).approvedNeeded
  {
    ApproveArgs(RouterAddress, MaxUint256)
  }

  /** The swap sells exactly `amount` of `fromToken` for `toToken`, accepts any
      output, pays `account`, and expires 1200 seconds after the current whole
      second of `nowMs` (milliseconds since the epoch). */
  function SwapRequest(amount: int, fromToken: Address, toToken: Address,
                       account: Option<Address>, nowMs: int): (r: SwapArgs)
    ensures r.amountIn == amount && r.amountOutMin == 0
    ensures r.path == [fromToken, toToken] && r.recipient == account
    ensures (r.deadline - DeadlineSeconds) * 1000 <= nowMs < (r.deadline - DeadlineSeconds + 1) * 1000
  {
    SwapArgs(amount, 0, [fromToken, toToken], account, nowMs / 1000 + DeadlineSeconds)
  }

  // ---------------------------------------------------------------------------
  // The amount input filter
  // ---------------------------------------------------------------------------

  /** The stored amount after the user types `value`: the typed string, kept
      untrimmed, when it has a non-whitespace character and parses; otherwise
      the stored amount is left as it was. A parsable, non-empty stored amount
      stays so. */
  function NextFromValue(current: string, value: string, parseUnits: Parser): (r: string)
    ensures !JsText.Blank(value) && parseUnits(value).Some? ==> r == value
    ensures JsText.Blank(value) || parseUnits(value).None? ==> r == current
    ensures current != "" && parseUnits(current).Some? ==> r != "" && parseUnits(r).Some?
  {
    if JsText.Trim(value) != "" && parseUnits(value).Some? then value else current
  }

  // ---------------------------------------------------------------------------
  // The component's state
  // ---------------------------------------------------------------------------

  /** The panel's state hooks, and the reset callbacks it has scheduled with the
      timer that have not fired yet. `parseUnits` is the decimal parser. */
  class ExchangeSession {
    const parseUnits: Parser
    var fromValue: string
    var fromToken: Address
    var toToken: Address
    var resetState: bool
    var pendingResets: nat

    /** The stored amount is never empty and always parses, so the render-time
        parse of it never throws. */
    ghost predicate Valid()
      reads this
    {
      parseUnits("0") == Some(0) && fromValue != "" && parseUnits(fromValue).Some?
    }

    /** The initial state: amount "0", from-token the first pool's token0, no
        to-token, no reset yet. */
    constructor (parseUnits: Parser, firstToken0: Address)
      requires parseUnits("0") == Some(0)
      ensures Valid()
      ensures this.parseUnits == parseUnits
      ensures fromValue == "0" && fromToken == firstToken0 && toToken == ""
      ensures !resetState && pendingResets == 0
    {
      this.parseUnits := parseUnits;
      fromValue := "0";
      fromToken := firstToken0;
      toToken := "";
      resetState := false;
      pendingResets := 0;
    }

    /** The parsed amount of this render (`fromValue || "0"`, parsed). */
    function Amount(): (a: int)
      reads this
      requires Valid()
      ensures Some(a) == parseUnits(fromValue)
    {
      parseUnits(if fromValue == "" then "0" else fromValue).value
    }

    /** The snapshot of this render, given what the wallet hooks report. */
    function Current(allowance: Option<nat>, balance: Option<nat>, isApproving: bool, isSwapping: bool): Snapshot
      reads this
      requires Valid()
    {
      Snapshot(Amount(), allowance, balance, isApproving, isSwapping)
    }

    /** The amount input's change handler. */
    method OnFromValueChange(value: string)
      requires Valid()
      modifies this
      ensures Valid()
      ensures fromValue == NextFromValue(old(fromValue), value, parseUnits)
      ensures fromToken == old(fromToken) && toToken == old(toToken)
      ensures resetState == old(resetState) && pendingResets == old(pendingResets)
    {
      var trimmedValue := JsText.Trim(value);
      if trimmedValue != "" {
        var parsed := parseUnits(value);
        if parsed.Some? {
          fromValue := value;
        }
      }
    }

    /** The from-token selector's change handler. */
    method OnFromTokenChange(value: Address)
      requires Valid()
      modifies this
      ensures Valid()
      ensures fromToken == value
      ensures fromValue == old(fromValue) && toToken == old(toToken)
      ensures resetState == old(resetState) && pendingResets == old(pendingResets)
    {
      fromToken := value;
    }

    /** The to-token selector's change handler. */
    method OnToTokenChange(value: Address)
      requires Valid()
      modifies this
      ensures Valid()
      ensures toToken == value
      ensures fromValue == old(fromValue) && fromToken == old(fromToken)
      ensures resetState == old(resetState) && pendingResets == old(pendingResets)
    {
      toToken := value;
    }

    /** The approve handler, reached only through the enabled approve button:
        it asks the selected from-token's contract to grant the router the
        largest allowance, and the render's amount exceeds the current one. */
    method ApproveRequestArgs(allowance: Option<nat>, balance: Option<nat>, isApproving: bool, isSwapping: bool)
      returns (token: Address, r: ApproveArgs)
      requires Valid()
      requires ClickButton(Current(allowance, balance, isApproving, isSwapping)) == RequestApprove
      ensures token == fromToken && r.spender == RouterAddress && r.amount == MaxUint256
      ensures Amount() > allowance.GetOr(0) && !isApproving && !isSwapping
    {
      token := fromToken;
      r := ApproveRequest();
    }

    /** The swap handler, reached only through the enabled swap button: it
        sells this render's amount, which is positive and covered by both the
        allowance and the balance, along the path from the selected from-token
        to the selected to-token. */
    method SwapRequestArgs(allowance: Option<nat>, balance: Option<nat>, isApproving: bool, isSwapping: bool,
                           account: Option<Address>, nowMs: int) returns (r: SwapArgs)
      requires Valid()
      requires ClickButton(Current(allowance, balance, isApproving, isSwapping)) == RequestSwap
      ensures 0 < r.amountIn <= allowance.GetOr(0) && r.amountIn <= balance.GetOr(0)
      ensures Some(r.amountIn) == parseUnits(fromValue)
      ensures r.path == [fromToken, toToken] && r.recipient == account && r.amountOutMin == 0
      ensures (r.deadline - DeadlineSeconds) * 1000 <= nowMs < (r.deadline - DeadlineSeconds + 1) * 1000
    {
      r := SwapRequest(Amount(), fromToken, toToken, account, nowMs);
    }

    /** The swap request's completion: the amount goes back to "0". */
    method OnSwapCompleted()
      requires Valid()
      modifies this
      ensures Valid()
      ensures fromValue == "0" && Amount() == 0
      ensures fromToken == old(fromToken) && toToken == old(toToken)
      ensures resetState == old(resetState) && pendingResets == old(pendingResets)
    {
      fromValue := "0";
    }

    /** The reset effect, run when either message changes: a reset is scheduled
        exactly when a failure or success message is present. */
    method OnMessagesChanged(failure: Option<string>, success: Option<string>) returns (scheduled: bool)
      requires Valid()
      modifies this
      ensures Valid()
      ensures scheduled <==> Shows(failure) || Shows(success)
      ensures pendingResets == old(pendingResets) + (if scheduled then 1 else 0)
      ensures fromValue == old(fromValue) && fromToken == old(fromToken) && toToken == old(toToken)
      ensures resetState == old(resetState)
    {
      scheduled := Shows(failure) || Shows(success);
      if scheduled {
        pendingResets := pendingResets + 1;
      }
    }

    /** A scheduled reset callback fires: it marks the session as reset, puts the
        amount back to "0" and clears the to-token. From then on no failure
        message is displayed. */
    method OnResetTimer()
      requires Valid()
      requires pendingResets > 0
      modifies this
      ensures Valid()
      ensures resetState && fromValue == "0" && Amount() == 0 && toToken == ""
      ensures fromToken == old(fromToken) && pendingResets == old(pendingResets) - 1
      ensures forall failure, success :: DisplayedMessage(failure, success, resetState) == (if Shows(success) then success else None)
    {
      pendingResets := pendingResets - 1;
      resetState := true;
      fromValue := "0";
      toToken := "";
    }
  }
}
