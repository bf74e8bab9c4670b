/** Judging a 402 challenge before anything is signed for it. */
module RequirementPolicy {
  import opened Wrappers
  import opened Decimal

  datatype TransferMethod = Eip3009 | Permit2

  /** One entry of a challenge. An address that does not parse is None; `amount` is
      the version 2 price and `maxAmountRequired` the version 1 price, None when the
      entry carries no such text; an absent or null method is None. */
  datatype Requirement = Requirement(
    scheme: string,
    network: string,
    asset: Option<nat>,
    payTo: Option<nat>,
    amount: Option<Text>,
    maxAmountRequired: Option<Text>,
    declaredMethod: Option<string>)

  /** `supportsEip3009` holds the assets this build has facts about. */
  datatype Policy = Policy(
    network: string,
    allowedAssets: seq<nat>,
    maximum: nat,
    allowedMethods: Option<seq<TransferMethod>>,
    payTo: Option<nat>,
    supportsEip3009: map<nat, bool>)

  datatype Code =
    | SchemeNotExact | NetworkNotAllowed | AssetMalformed | AssetNotHeld | RecipientMalformed | RecipientNotPinned
    | AmountMalformed | AmountAboveCeiling | MethodUnsupported | MethodNotAllowed | AssetLacksEip3009

  datatype Rejection = Rejection(index: nat, codes: seq<Code>)

  datatype Payable = Payable(requirement: Requirement, amount: Text, asset: nat, payTo: nat, transferMethod: TransferMethod)

  /** The price of either version, if it is a plain numeral. */
  function ReadAmount(requirement: Requirement): (price: Option<Text>)
    ensures price.Some? ==> IsNumeral(price.value) && price in {requirement.amount, requirement.maxAmountRequired}
    ensures requirement.amount.Some? ==>
              price == if IsNumeral(requirement.amount.value) then requirement.amount else None
    ensures requirement.amount.None? && requirement.maxAmountRequired.Some? ==>
              (price == requirement.maxAmountRequired <==> IsNumeral(requirement.maxAmountRequired.value))
  {
    var raw := if requirement.amount.Some? then requirement.amount else requirement.maxAmountRequired;
    if raw.Some? && IsNumeral(raw.value) then raw else None
  }

  function ReadTransferMethod(requirement: Requirement): (name: Option<TransferMethod>)
    ensures name == Some(Permit2) <==> requirement.declaredMethod == Some("permit2")
    ensures name == Some(Eip3009) <==> requirement.declaredMethod in {None, Some("eip3009")}
  {
    match requirement.declaredMethod
    case None => Some(Eip3009)
    case Some(name) => if name == "eip3009" then Some(Eip3009) else if name == "permit2" then Some(Permit2) else None
  }

  function AllowedMethods(policy: Policy): seq<TransferMethod> {
    if policy.allowedMethods.Some? then policy.allowedMethods.value else [Eip3009, Permit2]
  }

  /** What a code means, whichever other codes an entry also draws. */
  predicate Rejects(code: Code, r: Requirement, policy: Policy) {
    match code
    case SchemeNotExact => r.scheme != "exact"
    case NetworkNotAllowed => r.network != policy.network
    case AssetMalformed => r.asset.None?
    case AssetNotHeld => r.asset.Some? && r.asset.value !in policy.allowedAssets
    case RecipientMalformed => r.payTo.None?
    case RecipientNotPinned => r.payTo.Some? && policy.payTo.Some? && policy.payTo != r.payTo
    case AmountMalformed => ReadAmount(r).None?
    case AmountAboveCeiling => ReadAmount(r).Some? && ValueOf(ReadAmount(r).value) > policy.maximum
    case MethodUnsupported => ReadTransferMethod(r).None?
    case MethodNotAllowed => ReadTransferMethod(r).Some? && ReadTransferMethod(r).value !in AllowedMethods(policy)
    case AssetLacksEip3009 =>
      && ReadTransferMethod(r) == Some(Eip3009)
      && Eip3009 in AllowedMethods(policy)
      && r.asset.Some? && r.asset.value in policy.supportsEip3009 && !policy.supportsEip3009[r.asset.value]
  }

  function Rank(code: Code): nat {
    match code
    case SchemeNotExact => 0 case NetworkNotAllowed => 1 case AssetMalformed => 2 case AssetNotHeld => 3
    case RecipientMalformed => 4 case RecipientNotPinned => 5 case AmountMalformed => 6 case AmountAboveCeiling => 7
    case MethodUnsupported => 8 case MethodNotAllowed => 9 case AssetLacksEip3009 => 10
  }

  /** Everything the payer's limits ask of an entry it may settle. */
  predicate IsWithinLimits(r: Requirement, policy: Policy) {
    && r.scheme == "exact" && r.network == policy.network
    && r.asset.Some? && r.asset.value in policy.allowedAssets
    && r.payTo.Some? && (policy.payTo.Some? ==> r.payTo == policy.payTo)
    && ReadAmount(r).Some? && ValueOf(ReadAmount(r).value) <= policy.maximum
    && ReadTransferMethod(r).Some?
    && (policy.allowedMethods.Some? ==> ReadTransferMethod(r).value in policy.allowedMethods.value)
    && (ReadTransferMethod(r) == Some(Eip3009) && r.asset.value in policy.supportsEip3009
        ==> policy.supportsEip3009[r.asset.value])
  }

  /** `codes` lists, in rank order, exactly the codes below `rank` that apply. */
  predicate ExplainsBelow(rank: nat, codes: seq<Code>, r: Requirement, policy: Policy) {
    && (forall code :: code in codes <==> Rank(code) < rank && Rejects(code, r, policy))
    && (forall i, j :: 0 <= i < j < |codes| ==> Rank(codes[i]) < Rank(codes[j]))
  }

  predicate Explains(codes: seq<Code>, r: Requirement, policy: Policy) {
    ExplainsBelow(11, codes, r, policy)
  }

  function Considered(codes: seq<Code>, code: Code, r: Requirement, policy: Policy): seq<Code> {
    if Rejects(code, r, policy) then codes + [code] else codes
  }

  lemma ConsideredExplains(codes: seq<Code>, code: Code, r: Requirement, policy: Policy)
    requires ExplainsBelow(Rank(code), codes, r, policy)
    ensures ExplainsBelow(Rank(code) + 1, Considered(codes, code, r, policy), r, policy)
  {
  }

  lemma NoCodesExactlyWhenWithinLimits(codes: seq<Code>, r: Requirement, policy: Policy)
    requires Explains(codes, r, policy)
    ensures codes == [] <==> IsWithinLimits(r, policy)
  {
    if codes == [] {
      assert !Rejects(SchemeNotExact, r, policy) && !Rejects(NetworkNotAllowed, r, policy);
      assert !Rejects(AssetMalformed, r, policy) && !Rejects(AssetNotHeld, r, policy);
      assert !Rejects(RecipientMalformed, r, policy) && !Rejects(RecipientNotPinned, r, policy);
      assert !Rejects(AmountMalformed, r, policy) && !Rejects(AmountAboveCeiling, r, policy);
      assert !Rejects(MethodUnsupported, r, policy) && !Rejects(MethodNotAllowed, r, policy);
      assert !Rejects(AssetLacksEip3009, r, policy);
    } else {
      assert codes[0] in codes;
    }
  }

  method CodesOf(r: Requirement, policy: Policy) returns (codes: seq<Code>)
    ensures Explains(codes, r, policy)
  {
    codes := TermsCodes(r, policy);
    codes := AddressCodes(codes, r, policy);
    codes := PriceCodes(codes, r, policy);
    codes := MethodCodes(codes, r, policy);
  }

  method TermsCodes(r: Requirement, policy: Policy) returns (codes: seq<Code>)
    ensures ExplainsBelow(2, codes, r, policy)
  {
    codes := [];
    assert ExplainsBelow(0, codes, r, policy);
    hide ExplainsBelow;
    if r.scheme != "exact" { codes := codes + [SchemeNotExact]; }
    ConsideredExplains([], SchemeNotExact, r, policy);
    ghost var scheme := codes;
    if r.network != policy.network { codes := codes + [NetworkNotAllowed]; }
    ConsideredExplains(scheme, NetworkNotAllowed, r, policy);
  }

  method AddressCodes(before: seq<Code>, r: Requirement, policy: Policy) returns (codes: seq<Code>)
    requires ExplainsBelow(2, before, r, policy)
    ensures ExplainsBelow(6, codes, r, policy)
  {
    hide ExplainsBelow;
    codes := before;
    if r.asset.None? {
      codes := codes + [AssetMalformed];
    } else if r.asset.value !in policy.allowedAssets {
      codes := codes + [AssetNotHeld];
    }
    ConsideredExplains(before, AssetMalformed, r, policy);
    ConsideredExplains(Considered(before, AssetMalformed, r, policy), AssetNotHeld, r, policy);
    ghost var asset := codes;
    if r.payTo.None? {
      codes := codes + [RecipientMalformed];
    } else if policy.payTo.Some? && policy.payTo != r.payTo {
      codes := codes + [RecipientNotPinned];
    }
    ConsideredExplains(asset, RecipientMalformed, r, policy);
    ConsideredExplains(Considered(asset, RecipientMalformed, r, policy), RecipientNotPinned, r, policy);
  }

  method PriceCodes(before: seq<Code>, r: Requirement, policy: Policy) returns (codes: seq<Code>)
    requires ExplainsBelow(6, before, r, policy)
    ensures ExplainsBelow(8, codes, r, policy)
  {
    hide ExplainsBelow;
    codes := before;
    var amount := ReadAmount(r);
    if amount.None? {
      codes := codes + [AmountMalformed];
    } else if ValueOf(amount.value) > policy.maximum {
      codes := codes + [AmountAboveCeiling];
    }
    ConsideredExplains(before, AmountMalformed, r, policy);
    ConsideredExplains(Considered(before, AmountMalformed, r, policy), AmountAboveCeiling, r, policy);
  }

  method MethodCodes(before: seq<Code>, r: Requirement, policy: Policy) returns (codes: seq<Code>)
    requires ExplainsBelow(8, before, r, policy)
    ensures ExplainsBelow(11, codes, r, policy)
  {
    hide ExplainsBelow;
    codes := before;
    var transferMethod := ReadTransferMethod(r);
    if transferMethod.None? {
      codes := codes + [MethodUnsupported];
    } else if transferMethod.value !in AllowedMethods(policy) {
      codes := codes + [MethodNotAllowed];
    } else if transferMethod.value == Eip3009 && r.asset.Some? {
      if r.asset.value in policy.supportsEip3009 && !policy.supportsEip3009[r.asset.value] {
        codes := codes + [AssetLacksEip3009];
      }
    }
    ConsideredExplains(before, MethodUnsupported, r, policy);
    ghost var supported := Considered(before, MethodUnsupported, r, policy);
    ConsideredExplains(supported, MethodNotAllowed, r, policy);
    ConsideredExplains(Considered(supported, MethodNotAllowed, r, policy), AssetLacksEip3009, r, policy);
  }

  /** Picks the first entry within every limit. Each entry before it is reported in
      order with exactly the codes that apply to it. */
  method SelectPayableRequirement(requirements: seq<Requirement>, policy: Policy)
    returns (payable: Option<Payable>, rejected: seq<Rejection>)
    ensures |rejected| <= |requirements|
    ensures forall k :: 0 <= k < |rejected| ==>
              && rejected[k].index == k
              && Explains(rejected[k].codes, requirements[k], policy)
              && !IsWithinLimits(requirements[k], policy)
    ensures payable.None? <==> |rejected| == |requirements|
    ensures payable.Some? ==>
              var r := requirements[|rejected|];
              && payable.value.requirement == r && IsWithinLimits(r, policy)
              && ReadAmount(r) == Some(payable.value.amount) && ValueOf(payable.value.amount) <= policy.maximum
              && r.asset == Some(payable.value.asset) && payable.value.asset in policy.allowedAssets
              && r.payTo == Some(payable.value.payTo)
              && ReadTransferMethod(r) == Some(payable.value.transferMethod)
  {
    rejected := [];
    for index := 0 to |requirements|
      invariant |rejected| == index
      invariant forall k :: 0 <= k < index ==>
                  && rejected[k].index == k
                  && Explains(rejected[k].codes, requirements[k], policy)
                  && !IsWithinLimits(requirements[k], policy)
    {
      var r := requirements[index];
      var codes := CodesOf(r, policy);
      NoCodesExactlyWhenWithinLimits(codes, r, policy);
      if codes == [] {
        return Some(Payable(r, ReadAmount(r).value, r.asset.value, r.payTo.value, ReadTransferMethod(r).value)), rejected;
      }
      rejected := rejected + [Rejection(index, codes)];
    }
    return None, rejected;
  }
}
