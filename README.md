# Swap panel of a Uniswap V2 front end, modelled in Dafny

The exchange front end shows one swap panel (`src/components/Exchange.jsx`). On
every render it reads a snapshot of the wallet: the parsed input amount, the
router's allowance on the from-token, the wallet's balance of that token, and
whether an approval or a swap call is pending. From it the panel derives five
flags (`approvedNeeded`, `formValueIsGreaterThan0`, `hasEnoughBalance`,
`canApprove`, `canSwap`). It then picks one action button with its caption and
enabled state, and one status message. Its handlers filter the typed amount and
build the `approve` and `swapExactTokensForTokens` requests. Its effect schedules
an auto-reset once a success or failure message appears.

The project has three modules:

- `Wrappers` (`wrappers.dfy`) holds `Option`, used for values that may be
  `undefined` and for a parser that may throw.
- `JsText` (`jstext.dfy`) models JavaScript's `String.prototype.trim`. It uses
  the WhiteSpace and LineTerminator code points of the ECMAScript language
  specification.
- `Exchange` (`exchange.dfy`) holds the panel. The flags, the button, the
  message and the request arguments are pure functions of a `Snapshot`. The
  component's state hooks (`fromValue`, `fromToken`, `toToken`, `resetState`)
  are fields of the class `ExchangeSession`, which its handler methods update.

Modelling choices:

- The decimal parser `parseUnits` is an opaque function of type
  `string -> Option<int>`, where `None` means it throws. It is a constant of
  the session. The constructor requires only that it parses `"0"` to 0.
- Parsed amounts are `int`, not `nat`, so a parser that accepts a minus sign
  is covered. Allowances and balances are `Option<nat>`, where `None` means
  the hook has no value yet.
- Strings are Dafny strings, i.e. sequences of Unicode scalar values, while a
  JavaScript string is a sequence of UTF-16 code units. `trim` is unaffected,
  since every whitespace code point it strips lies in the Basic Multilingual
  Plane.
- Messages are `Option<string>`. One "shows" when it is present and non-empty,
  which is JavaScript truthiness.
- The invariant `Valid()` says the stored amount is never empty and always
  parses. So the render-time parse `parseUnits(fromValue || "0")` never throws.
- `resetState` is never set back to `false`. After the first auto-reset, a
  failure message is never displayed again in that session, while a success
  message still is. The model keeps this behaviour.

## Model

| member | source | states |
|---|---|---|
| `JsText.TrimStart` | src/components/Exchange.jsx:110 | The result is a suffix of the input. Every dropped character is whitespace. The result is empty or starts with a non-whitespace character. |
| `JsText.TrimEnd` | src/components/Exchange.jsx:110 | The result is a prefix of the input. Every dropped character is whitespace. The result is empty or ends with a non-whitespace character. |
| `JsText.Trim` | src/components/Exchange.jsx:110-113 | The trimmed value is the infix of the input between a blank prefix and a blank suffix. It is empty exactly when every character of the input is whitespace. Otherwise it starts and ends with a non-whitespace character. |
| `Exchange.Evaluate` | src/components/Exchange.jsx:46-89 | `canApprove` and `canSwap` are never both true. `canSwap` holds iff no swap is pending and 0 < amount <= allowance and amount <= balance, with missing values read as 0. So a zero amount, a needed approval, a pending swap or a short balance each blocks the swap on its own. `canApprove` holds iff no approval is pending and amount > allowance. A missing allowance makes every positive amount need approval. A missing balance makes exactly the non-positive amounts have enough balance. Once loaded, `approvedNeeded` iff amount > allowance, `hasEnoughBalance` iff amount <= balance, and `formValueIsGreaterThan0` iff amount > 0; `canApprove` implies `approvedNeeded`. |
| `Exchange.SelectButton` | src/components/Exchange.jsx:170-197 | The approve button is shown iff approval is needed and no swap is pending. It is enabled iff `canApprove`, with caption "Approving..." or "Approve". Otherwise the swap button is shown, enabled iff `canSwap`. Its caption is "Swapping..." while a swap is pending (and then it is disabled), else "Swap" or "Insufficient balance" by the balance. An enabled swap button always reads "Swap". |
| `Exchange.ClickButton` | src/components/Exchange.jsx:171-196 | A click requests a swap iff `canSwap`. It requests an approval iff `canApprove` and no swap is pending. Any request needs a positive amount. |
| `Exchange.DisplayedMessage` | src/components/Exchange.jsx:199-206 | Any displayed message is a non-empty failure or success message. Before a reset, a failure message wins. After a reset, or with no failure, the success message is shown if there is one. With neither message nothing is shown. |
| `Exchange.ApproveRequest` | src/components/Exchange.jsx:92-94 | Approval grants the router MaxUint256. With that allowance, no amount up to MaxUint256 needs approval. |
| `Exchange.SwapRequest` | src/components/Exchange.jsx:97-104 | The request sends amountIn = the amount, amountOutMin = 0, path = [from, to] and recipient = the account. The deadline is the current whole second plus 1200. |
| `Exchange.NextFromValue` | src/components/Exchange.jsx:109-121 | Blank input leaves the stored amount unchanged, and so does input that fails to parse. Otherwise the untrimmed input is stored. A non-empty parsable amount stays non-empty and parsable. |
| `Exchange.ExchangeSession.constructor` | src/components/Exchange.jsx:28-32 | The session starts with amount "0", the first pool's token0, no to-token, no reset and no pending reset. |
| `Exchange.ExchangeSession.Amount` | src/components/Exchange.jsx:36 | The render's amount is the value the parser gives for the stored string. |
| `Exchange.ExchangeSession.OnFromValueChange` | src/components/Exchange.jsx:109-121 | The handler stores `NextFromValue` of the typed string and changes nothing else. The invariant is kept. |
| `Exchange.ExchangeSession.OnFromTokenChange` | src/components/Exchange.jsx:123-125 | The handler sets the from-token and changes nothing else. |
| `Exchange.ExchangeSession.OnToTokenChange` | src/components/Exchange.jsx:127-129 | The handler sets the to-token and changes nothing else. |
| `Exchange.ExchangeSession.ApproveRequestArgs` | src/components/Exchange.jsx:52-94 | Reached only through the enabled approve button, the approval goes to the selected from-token's contract and grants the router MaxUint256. The render's amount then exceeds the current allowance, and neither call is pending. |
| `Exchange.ExchangeSession.SwapRequestArgs` | src/components/Exchange.jsx:97-104 | Reached only through the enabled swap button, the swap sells the stored amount's parse. That amount is positive and covered by both the allowance and the balance. The path is [from-token, to-token], the recipient is the account, amountOutMin is 0, and the deadline is the current whole second plus 1200. |
| `Exchange.ExchangeSession.OnSwapCompleted` | src/components/Exchange.jsx:104-106 | After the swap completes, the amount is "0" (parsed: 0) and nothing else changes. |
| `Exchange.ExchangeSession.OnMessagesChanged` | src/components/Exchange.jsx:132-140 | The effect schedules one reset exactly when a failure or a success message shows. It changes nothing else. |
| `Exchange.ExchangeSession.OnResetTimer` | src/components/Exchange.jsx:134-138 | The callback sets `resetState`, puts the amount back to "0" and clears the to-token. The from-token is kept. From then on, whatever the messages, only a success message can be displayed. |

## Left out

- The pool index, the pool lookup and the quote (`getAvailableTokens`, `getCounterpartTokens`, `findPoolByTokens`, `useAmountsOut`) live in `src/utils/helpers`, which is not part of this model. Their results are not used by the modelled logic, except `pairAddress`, which only feeds the quote display.
- `isOperationPending`, `getSuccessMessage` and `getFailureMessage` are also in `src/utils/helpers`. Their results enter as the pending flags and the optional message strings.
- `parseUnits` and `formatUnits` (decimal conversion in the ethers library) are not modelled. The parser is an opaque parameter.
- The wallet and contract layer is not modelled: the `@usedapp/core` hooks, contract construction, and the actual `approve` and swap calls. Their asynchronous completion is modelled only as the `OnSwapCompleted` transition.
- The `console.log` of a parse error (src/components/Exchange.jsx:118-119) is not modelled: it is output only, and the stored amount is kept as `NextFromValue` says.
- The constructor takes the first pool's token0 as a parameter. With an empty pool list, src/components/Exchange.jsx:30 throws on `pools[0]`; that failure is not modelled.
- The clock is not modelled. The current time is the `nowMs` parameter of `SwapRequest`.
- The 5-second delay of the reset timer is not modelled. The model counts scheduled callbacks, and `OnResetTimer` may fire any of them later. React's rule that the effect runs only when a message changes is taken as the caller's duty.
- The `isSwapping && hasEnoughBalance` flag passed to the input field (src/components/Exchange.jsx:152) goes to a component that is not part of this model.
- Styling, class names and layout are not modelled.
- Other files are not modelled: `src/App.js`, `src/components/WalletButton.jsx` and `src/components/AmountOut.jsx` are rendering, `src/utils/getRouterInfo.js` is a single on-chain call, and `src/config.js` and `src/utils/index.js` hold constants and re-exports. The router address from `src/config.js` is the constant `RouterAddress`.
