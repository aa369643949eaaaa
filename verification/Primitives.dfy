/**
 Vocabulary shared by the two Phala World pallets: identifiers, the enums and records of
 traits.rs, the pallet constants, the dispatch errors and the SCALE encoding of the four traits.
 */
module Primitives {
  type AccountId = nat
  type CollectionId = nat
  type NftId = nat
  type Nft = (CollectionId, NftId)
  type PreorderId = nat
  type EraId = nat
  type Balance = nat
  type Signature = nat
  type byte = n: nat | n < 256
  type Bytes = seq<byte>

  const U32_MAX: nat := 0xFFFF_FFFF
  const U32_SIZE: nat := 0x1_0000_0000
  const U64_SIZE: nat := 0x1_0000_0000_0000_0000

  type GenerationId = n: nat | n <= U32_MAX

  datatype Option<+T> = None | Some(value: T) {
    /** `ok_or`: the value, or the given error. */
    function OkOr(error: Error): Result<T> {
      match this
      case Some(v) => Ok(v)
      case None => Err(error)
    }
  }

  /** The outcome of a call: a value, or the error that rolls the call back. */
  datatype Result<+T> = Ok(value: T) | Err(error: Error) {
    predicate IsFailure() { Err? }
    function PropagateFailure<U>(): Result<U>
      requires Err?
    {
      Err(error)
    }
    function Extract(): T
      requires Ok?
    {
      value
    }
  }

  /** `ensure!`: passes when the condition holds. */
  function Need(condition: bool, error: Error): Result<()> {
    if condition then Ok(()) else Err(error)
  }

  datatype RarityType = Prime | Magic | Legendary

  datatype RaceType = Cyborg | AISpectre | XGene | Pandroid

  datatype CareerType = HackerWizard | HardwareDruid | RoboWarrior | TradeNegotiator | Web3Monk

  datatype NftSaleType = ForSale | Giveaway | Reserved

  datatype Purpose = RedeemSpiritPurpose | BuyPrimeOriginOfShellsPurpose

  datatype StatusType =
    | ClaimSpirits
    | PurchaseRareOriginOfShells
    | PurchasePrimeOriginOfShells
    | PreorderOriginOfShells
    | LastDayOfSale

  datatype PreorderInfo =
    PreorderInfo(owner: AccountId, race: RaceType, career: CareerType, metadata: Bytes)

  datatype NftSaleInfo =
    NftSaleInfo(raceCount: nat, forSaleCount: nat, giveawayCount: nat, reservedCount: nat)
  {
    /** The pot that a mint of the given kind draws from. */
    function Pot(saleType: NftSaleType): nat {
      match saleType
      case ForSale => forSaleCount
      case Giveaway => giveawayCount
      case Reserved => reservedCount
    }
  }

  datatype FoodInfo = FoodInfo(era: EraId, originOfShellsFed: seq<Nft>)

  /** The names under which the traits of an NFT are stored. */
  datatype AttributeKey = RarityKey | RaceKey | CareerKey | GenerationKey {
    function Name(): string {
      match this
      case RarityKey => "rarity"
      case RaceKey => "race"
      case CareerKey => "career"
      case GenerationKey => "generation"
    }
  }

  datatype Traits =
    Traits(rarity: RarityType, race: RaceType, career: CareerType, generation: GenerationId)

  datatype Error =
    // pallet_pw_nft_sale
    | WorldClockAlreadySet
    | SpiritClaimNotAvailable
    | RareOriginOfShellPurchaseNotAvailable
    | PrimeOriginOfShellPurchaseNotAvailable
    | PreorderOriginOfShellNotAvailable
    | SpiritAlreadyClaimed
    | InvalidSpiritClaim
    | MustOwnSpiritToPurchase
    | OriginOfShellAlreadyPurchased
    | BelowMinimumBalanceThreshold
    | WhitelistVerificationFailed
    | InvalidPurchase
    | NoAvailablePreorderId
    | RaceMintMaxReached
    | OverlordNotSet
    | RequireOverlordAccount
    | WrongRarityType
    | SpiritCollectionNotSet
    | SpiritCollectionIdAlreadySet
    | SpiritsMetadataNotSet
    | OriginOfShellCollectionNotSet
    | OriginOfShellCollectionIdAlreadySet
    | OriginOfShellInventoryCorrupted
    | OriginOfShellInventoryAlreadySet
    | OriginOfShellsMetadataNotSet
    | KeyTooLong
    | NoAvailableRaceGivewayLeft
    | NoAvailableRaceReservedLeft
    | WrongNftSaleType
    // pallet_pw_incubation
    | StartIncubationNotAvailable
    | HatchingInProgress
    | CannotHatchOriginOfShell
    | CannotSendFoodToOriginOfShell
    | AlreadySentFoodTwice
    | NotOwner
    | WrongCollectionId
    | NoHatchTimeDetected
    | ShellCollectionIdAlreadySet
    | ShellCollectionIdNotSet
    | RaceNotDetected
    | CareerNotDetected
    | RarityTypeNotDetected
    | GenerationNotDetected
    | FoodInfoUpdateError
    // an `expect` on the result of a decode: a panic, not an error a caller sees
    | DecodePanic
    // the currency and RMRK
    | InsufficientBalance
    | ExistentialDeposit
    | KeepAlive
    | NoAvailableNftId
    | NoPermission
    | RmrkRefused
    | BadOrigin

  /**
   The constants of both pallets' Config traits. `verifies` stands for sr25519 verification:
   overlord, claimant, purpose, signature. It is not interpreted.
   */
  datatype Config = Config(
    secondsPerEra: nat,
    minBalanceToClaimSpirit: Balance,
    legendaryPrice: Balance,
    magicPrice: Balance,
    primePrice: Balance,
    iterLimit: nat,
    foodPerEra: nat,
    maxFoodFeedSelf: nat,
    incubationDuration: nat,
    existentialDeposit: Balance,
    keyLimit: nat,
    verifies: (AccountId, AccountId, Purpose, Signature) -> bool)
  {
    /** The hypotheses on the runtime's constants. */
    predicate Valid() {
      && 1 <= secondsPerEra
      && 1 <= iterLimit
    }

    function PriceOf(rarity: RarityType): Balance {
      match rarity
      case Prime => primePrice
      case Magic => magicPrice
      case Legendary => legendaryPrice
    }
  }

  function Min(a: nat, b: nat): nat {
    if a <= b then a else b
  }

  function Max(a: nat, b: nat): nat {
    if a <= b then b else a
  }

  function SaturatingSub(a: nat, b: nat): nat {
    if b <= a then a - b else 0
  }

  /** A 32-bit counter that wraps around. */
  function WrapU32(a: nat): nat {
    a % U32_SIZE
  }

  function SaturatingAddU32(a: nat, b: nat): nat {
    Min(a + b, U32_MAX)
  }
}

/**
 The SCALE encoding of the traits: an enum is one byte, the index of its variant in declaration
 order; a GenerationId (u32) is four bytes, least significant first. Decoding reads a prefix.
 */
module Codec {
  import opened Primitives

  function EncodeRarity(rarity: RarityType): Bytes {
    match rarity
    case Prime => [0]
    case Magic => [1]
    case Legendary => [2]
  }

  function DecodeRarity(bytes: Bytes): Option<RarityType> {
    if |bytes| == 0 then None
    else match bytes[0]
      case 0 => Some(Prime)
      case 1 => Some(Magic)
      case 2 => Some(Legendary)
      case _ => None
  }

  function EncodeRace(race: RaceType): Bytes {
    match race
    case Cyborg => [0]
    case AISpectre => [1]
    case XGene => [2]
    case Pandroid => [3]
  }

  function DecodeRace(bytes: Bytes): Option<RaceType> {
    if |bytes| == 0 then None
    else match bytes[0]
      case 0 => Some(Cyborg)
      case 1 => Some(AISpectre)
      case 2 => Some(XGene)
      case 3 => Some(Pandroid)
      case _ => None
  }

  function EncodeCareer(career: CareerType): Bytes {
    match career
    case HackerWizard => [0]
    case HardwareDruid => [1]
    case RoboWarrior => [2]
    case TradeNegotiator => [3]
    case Web3Monk => [4]
  }

  function DecodeCareer(bytes: Bytes): Option<CareerType> {
    if |bytes| == 0 then None
    else match bytes[0]
      case 0 => Some(HackerWizard)
      case 1 => Some(HardwareDruid)
      case 2 => Some(RoboWarrior)
      case 3 => Some(TradeNegotiator)
      case 4 => Some(Web3Monk)
      case _ => None
  }

  function EncodeGeneration(n: GenerationId): Bytes {
    [n % 256, n / 0x100 % 256, n / 0x1_0000 % 256, n / 0x100_0000]
  }

  function DecodeGeneration(bytes: Bytes): Option<GenerationId> {
    if |bytes| < 4 then None
    else
      var a: nat, b: nat, c: nat, d: nat := bytes[0], bytes[1], bytes[2], bytes[3];
      Some(a + 0x100 * b + 0x1_0000 * c + 0x100_0000 * d)
  }

  /** The position of a variant in its declaration. */
  function RarityIndex(rarity: RarityType): byte {
    if rarity == Prime then 0 else if rarity == Magic then 1 else 2
  }

  function RaceIndex(race: RaceType): byte {
    if race == Cyborg then 0 else if race == AISpectre then 1 else if race == XGene then 2 else 3
  }

  function CareerIndex(career: CareerType): byte {
    if career == HackerWizard then 0 else if career == HardwareDruid then 1 else if career == RoboWarrior then 2
    else if career == TradeNegotiator then 3 else 4
  }

  /** An enum is the one byte of its index; the four bytes of a generation add up to it, least significant first. */
  lemma EncodingIs(t: Traits)
    ensures EncodeRarity(t.rarity) == [RarityIndex(t.rarity)]
    ensures EncodeRace(t.race) == [RaceIndex(t.race)]
    ensures EncodeCareer(t.career) == [CareerIndex(t.career)]
    ensures |EncodeGeneration(t.generation)| == 4
    ensures
      var bytes := EncodeGeneration(t.generation);
      var a: nat, b: nat, c: nat, d: nat := bytes[0], bytes[1], bytes[2], bytes[3];
      t.generation == a + 0x100 * b + 0x1_0000 * c + 0x100_0000 * d
  {
    var n := t.generation;
    assert n / 0x100 == n / 0x1_0000 * 256 + n / 0x100 % 256;
    assert n / 0x1_0000 == n / 0x100_0000 * 256 + n / 0x1_0000 % 256;
  }

  /** Bytes decode exactly when they start with the index of a variant, or are at least four. */
  lemma DecodingIs(bytes: Bytes)
    ensures DecodeRarity(bytes).Some? <==> |bytes| > 0 && bytes[0] < 3
    ensures DecodeRarity(bytes).Some? ==> RarityIndex(DecodeRarity(bytes).value) == bytes[0]
    ensures DecodeRace(bytes).Some? <==> |bytes| > 0 && bytes[0] < 4
    ensures DecodeRace(bytes).Some? ==> RaceIndex(DecodeRace(bytes).value) == bytes[0]
    ensures DecodeCareer(bytes).Some? <==> |bytes| > 0 && bytes[0] < 5
    ensures DecodeCareer(bytes).Some? ==> CareerIndex(DecodeCareer(bytes).value) == bytes[0]
    ensures DecodeGeneration(bytes).Some? <==> |bytes| >= 4
    ensures |bytes| >= 4 ==>
      var a: nat, b: nat, c: nat, d: nat := bytes[0], bytes[1], bytes[2], bytes[3];
      DecodeGeneration(bytes) == Some(a + 0x100 * b + 0x1_0000 * c + 0x100_0000 * d)
  {
  }

  /** Decoding undoes encoding, whatever bytes follow, so no two traits share an encoding. */
  lemma RoundTrip(t: Traits, rest: Bytes)
    ensures DecodeRarity(EncodeRarity(t.rarity) + rest) == Some(t.rarity)
    ensures DecodeRace(EncodeRace(t.race) + rest) == Some(t.race)
    ensures DecodeCareer(EncodeCareer(t.career) + rest) == Some(t.career)
    ensures DecodeGeneration(EncodeGeneration(t.generation) + rest) == Some(t.generation)
  {
    GenerationRoundTrip(t.generation, rest);
  }

  lemma GenerationRoundTrip(n: GenerationId, rest: Bytes)
    ensures DecodeGeneration(EncodeGeneration(n) + rest) == Some(n)
  {
    var bytes := EncodeGeneration(n) + rest;
    assert bytes[..4] == EncodeGeneration(n);
    assert bytes[0] == n % 256 && bytes[1] == n / 0x100 % 256;
    assert bytes[2] == n / 0x1_0000 % 256 && bytes[3] == n / 0x100_0000;
    assert n / 0x100 == n / 0x1_0000 * 256 + n / 0x100 % 256;
    assert n / 0x1_0000 == n / 0x100_0000 * 256 + n / 0x1_0000 % 256;
  }

  /** A byte string that decodes at all decodes to the trait whose encoding it starts with. */
  lemma DecodesOnlyEncodings(bytes: Bytes)
    ensures DecodeRarity(bytes).Some? ==> EncodeRarity(DecodeRarity(bytes).value) <= bytes
    ensures DecodeRace(bytes).Some? ==> EncodeRace(DecodeRace(bytes).value) <= bytes
    ensures DecodeCareer(bytes).Some? ==> EncodeCareer(DecodeCareer(bytes).value) <= bytes
    ensures DecodeGeneration(bytes).Some? ==> EncodeGeneration(DecodeGeneration(bytes).value) <= bytes
  {
    if DecodeGeneration(bytes).Some? {
      hide *;
      DecodesOnlyGenerations(bytes);
    }
  }

  lemma DecodesOnlyGenerations(bytes: Bytes)
    requires DecodeGeneration(bytes).Some?
    ensures EncodeGeneration(DecodeGeneration(bytes).value) <= bytes
  {
    var a: nat, b: nat, c: nat, d: nat := bytes[0], bytes[1], bytes[2], bytes[3];
    var n := DecodeGeneration(bytes).value;
    assert n / 0x100 == b + 0x100 * c + 0x1_0000 * d;
    assert n / 0x1_0000 == c + 0x100 * d;
    assert n / 0x100_0000 == d;
    assert EncodeGeneration(n) == bytes[..4];
  }
}
