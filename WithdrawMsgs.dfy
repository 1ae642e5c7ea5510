/**
 * The withdraw-liquidity message builder of
 * components/Pages/Trade/Liquidity/hooks/createWithdrawMsgs.ts.
 */
module WithdrawMsgs {
  import opened Wrappers
  import opened Json
  import opened Messages
  import Utf8
  import Base64

  /** `toBase64`: the UTF-8 bytes of the object's JSON text, in base64. */
  function ToBase64(obj: Json): string
  {
    Base64.Encode(Utf8.Encode(Stringify(obj)))
  }

  /** How a receiving contract reads an embedded message: base64, then UTF-8, then JSON. */
  function FromBase64(s: string): Option<Json>
  {
    match Base64.Decode(s)
    case None => None
    case Some(bytes) =>
      match Utf8.Decode(bytes)
      case None => None
      case Some(text) => Parse(text)
  }

  /** Whatever object is embedded with `ToBase64` is read back unchanged. */
  lemma FromBase64ToBase64(obj: Json)
    ensures FromBase64(ToBase64(obj)) == Some(obj)
  {
    var text := Stringify(obj);
    Base64.DecodeEncode(Utf8.Encode(text));
    Utf8.DecodeEncode(text);
    ParseStringify(obj);
  }

  /** `{withdraw_liquidity: {}}`, the object `createNativeWithdrawMsg` returns. */
  function NativeWithdrawMsg(): Json
  {
    JObject([Member("withdraw_liquidity", JObject([]))])
  }

  /** `{withdraw: {}}`, the incentive claim sent to the staking contract. */
  function ClaimMsg(): Json
  {
    JObject([Member("withdraw", JObject([]))])
  }

  /** A cw20 `send` of `amount` to `contract`, carrying `hook` as its embedded message. */
  function SendMsg(amount: string, contract: string, hook: Json): Json
  {
    JObject([Member("send", JObject([
      Member("amount", JString(amount)),
      Member("contract", JString(contract)),
      Member("msg", JString(ToBase64(hook)))]))])
  }

  /** `createWithdrawMsg`: a cw20 `send` of the LP tokens to the pool with the withdraw embedded. */
  function WithdrawMsg(amount: string, swapAddress: string): Json
  {
    SendMsg(amount, swapAddress, NativeWithdrawMsg())
  }

  /** The first member named `key`, if any. */
  function Lookup(members: seq<Member>, key: string): (r: Option<Json>)
    ensures r.Some? ==> exists i :: 0 <= i < |members| && members[i] == Member(key, r.value)
  {
    if |members| == 0 then None
    else if members[0].key == key then Some(members[0].value)
    else Lookup(members[1..], key)
  }

  /** What a cw20 contract reads from a `send` call: amount, recipient and the decoded hook message. */
  datatype Send = Send(amount: string, contract: string, msg: Json)

  function ReadSend(m: Json): Option<Send>
  {
    if !m.JObject? then None
    else match Lookup(m.members, "send")
      case Some(JObject(fields)) =>
        (match (Lookup(fields, "amount"), Lookup(fields, "contract"), Lookup(fields, "msg"))
         case (Some(JString(amount)), Some(JString(contract)), Some(JString(encoded))) =>
           (match FromBase64(encoded)
            case Some(inner) => Some(Send(amount, contract, inner))
            case None => None)
         case _ => None)
      case _ => None
  }

  /** A contract reading a `send` gets back the amount, the recipient and the embedded message. */
  lemma ReadSendMsg(amount: string, contract: string, hook: Json)
    ensures ReadSend(SendMsg(amount, contract, hook)) == Some(Send(amount, contract, hook))
  {
    var encoded := ToBase64(hook);
    var fields := [Member("amount", JString(amount)), Member("contract", JString(contract)), Member("msg", JString(encoded))];
    assert SendMsg(amount, contract, hook) == JObject([Member("send", JObject(fields))]);
    assert Lookup(fields, "amount") == Some(JString(amount));
    assert Lookup(fields, "contract") == Some(JString(contract)) by {
      assert fields[1..][0].key == "contract";
    }
    assert Lookup(fields, "msg") == Some(JString(encoded)) by {
      assert fields[1..][1..] == [Member("msg", JString(encoded))];
      assert Lookup(fields[1..][1..], "msg") == Some(JString(encoded));
      assert Lookup(fields[1..], "msg") == Some(JString(encoded));
    }
    FromBase64ToBase64(hook);
  }

  /**
   * The cw20 withdraw message sends `amount` to the pool, and the pool reads
   * `{withdraw_liquidity: {}}` out of its embedded `msg`.
   */
  lemma ReadWithdrawMsg(amount: string, swapAddress: string)
    ensures ReadSend(WithdrawMsg(amount, swapAddress)) == Some(Send(amount, swapAddress, NativeWithdrawMsg()))
  {
    ReadSendMsg(amount, swapAddress, NativeWithdrawMsg());
  }

  /** `isNative = false`: an omitted flag selects the cw20 path. */
  function IsNative(isNative: Option<bool>): bool
  {
    match isNative
    case None => false
    case Some(b) => b
  }

  predicate IsClaim(c: Call)
  {
    c.Execute? && c.msg == ClaimMsg()
  }

  /** The call that performs the withdraw, last in every result. */
  function WithdrawCall(contract: string, amount: string, swapAddress: string, native: bool, sender: string): Call
  {
    if native then Execute(sender, swapAddress, NativeWithdrawMsg(), [Coin(contract, amount)])
    else Execute(sender, contract, WithdrawMsg(amount, swapAddress), [])
  }

  /**
   * `createWithdrawExecuteMsgs`: the optional incentive claim, then the
   * allowance for a cw20 LP token, then the withdraw.
   */
  function CreateWithdrawExecuteMsgs(contract: string, amount: string, swapAddress: string,
                                     claimIncentive: bool, stakingAddress: string,
                                     isNative: Option<bool>, sender: string): (r: seq<Call>)
    ensures |r| == 1 + (if claimIncentive then 1 else 0) + (if IsNative(isNative) then 0 else 1)
    ensures forall i :: 0 <= i < |r| ==> r[i].sender == sender
    // the claim comes first, and only when asked for
    ensures claimIncentive ==> r[0] == Execute(sender, stakingAddress, ClaimMsg(), [])
    ensures forall i :: 0 <= i < |r| ==> (IsClaim(r[i]) <==> claimIncentive && i == 0)
    // exactly one allowance, right before the withdraw, and only for a cw20 LP token
    ensures forall i :: 0 <= i < |r| ==> (r[i].IncreaseAllowance? <==> !IsNative(isNative) && i == |r| - 2)
    ensures !IsNative(isNative) ==> r[|r| - 2] == IncreaseAllowance(sender, contract, swapAddress, amount)
    // the withdraw is last: native funds to the pool, or a cw20 send with no funds
    ensures IsNative(isNative) ==> r[|r| - 1] == Execute(sender, swapAddress, NativeWithdrawMsg(), [Coin(contract, amount)])
    ensures !IsNative(isNative) ==> r[|r| - 1] == Execute(sender, contract, WithdrawMsg(amount, swapAddress), [])
  {
    var native := IsNative(isNative);
    var allowances := if native then [] else [IncreaseAllowance(sender, contract, swapAddress, amount)];
    var claims := if claimIncentive then [Execute(sender, stakingAddress, ClaimMsg(), [])] else [];
    claims + allowances + [WithdrawCall(contract, amount, swapAddress, native, sender)]
  }

  /** Leaving `isNative` out is the same as passing `false`. */
  lemma DefaultIsCw20(contract: string, amount: string, swapAddress: string,
                      claimIncentive: bool, stakingAddress: string, sender: string)
    ensures CreateWithdrawExecuteMsgs(contract, amount, swapAddress, claimIncentive, stakingAddress, None, sender)
         == CreateWithdrawExecuteMsgs(contract, amount, swapAddress, claimIncentive, stakingAddress, Some(false), sender)
    ensures |CreateWithdrawExecuteMsgs(contract, amount, swapAddress, claimIncentive, stakingAddress, None, sender)|
         == 2 + (if claimIncentive then 1 else 0)
  {
  }

  /**
   * For a cw20 LP token the final call is a `send` to the pool whose embedded
   * message decodes to the withdraw, and the allowance before it covers the same
   * amount for the same spender.
   */
  lemma Cw20WithdrawIsCovered(contract: string, amount: string, swapAddress: string,
                              claimIncentive: bool, stakingAddress: string, sender: string)
    ensures var r := CreateWithdrawExecuteMsgs(contract, amount, swapAddress, claimIncentive, stakingAddress, Some(false), sender);
      var last := r[|r| - 1];
      && last.Execute? && last.contract == contract && last.funds == []
      && ReadSend(last.msg) == Some(Send(r[|r| - 2].amount, r[|r| - 2].spender, NativeWithdrawMsg()))
  {
    ReadWithdrawMsg(amount, swapAddress);
  }

  /** A native withdraw of 1000000 uwhale without a claim is one call carrying the funds. */
  lemma NativeWithdrawExample(swapAddress: string, sender: string)
    ensures CreateWithdrawExecuteMsgs("uwhale", "1000000", swapAddress, false, "", Some(true), sender)
         == [Execute(sender, swapAddress, NativeWithdrawMsg(), [Coin("uwhale", "1000000")])]
  {
  }
}
