/**
 * Ball inheritance permissions for the Generation 6 games (X/Y and
 * Omega Ruby/Alpha Sapphire), modelled on BallContext6.
 *
 * Given a species, a form and a ball, the rules decide whether an egg of
 * that species could have hatched in that ball; given a specimen as well,
 * they also decide whether the specimen's hidden-ability flag is
 * consistent with that ball.
 */
module BallContext6 {

  newtype u8 = x: int | 0 <= x < 0x100
  newtype u16 = x: int | 0 <= x < 0x1_0000

  /**
   * The balls the classifier names; Master, Cherish and Beast, which the
   * classifier's default arm sends to None; and Other for every remaining
   * ball.
   */
  datatype Ball =
    | Master | Ultra | Great | Poke | Safari
    | Net | Dive | Nest | Repeat | Timer | Luxury | Premier
    | Dusk | Heal | Quick | Cherish
    | Fast | Level | Lure | Heavy | Love | Friend | Moon
    | Sport | Dream | Beast
    | Other

  /**
   * The breeding categories of a ball. The ordinal of each tracked category
   * is the bit it owns in a permit byte; None (ordinal 9) owns no bit.
   */
  datatype BallType = Gen3 | Gen4 | Safari | Apricorn | Sport | Dream | None
  {
    function Ordinal(): (n: nat)
      ensures None? <==> n == 9
      ensures !None? ==> n < 6
    {
      match this
      case Gen3 => 0
      case Gen4 => 1
      case Safari => 2
      case Apricorn => 3
      case Sport => 4
      case Dream => 5
      case None => 9
    }
  }

  /** No two categories share an ordinal, so each tracked one owns its own bit. */
  lemma OrdinalInjective(s: BallType, t: BallType)
    ensures s.Ordinal() == t.Ordinal() ==> s == t
  {
  }

  /** Outcome of the check that is given a specimen. */
  datatype BallInheritanceResult = Valid | Invalid | BadAbility

  /** The two fields of a specimen the rules read. */
  datatype Pkm = Pkm(format: int, abilityNumber: int)

  /** AbilityNumber is a flag (1, 2 or 4); 4 marks the hidden ability. */
  const HiddenAbilityNumber: int := 4

  // National Pokédex numbers of the species the exception lists name.
  const Chikorita: u16 := 152
  const Cyndaquil: u16 := 155
  const Totodile: u16 := 158
  const Treecko: u16 := 252
  const Torchic: u16 := 255
  const Mudkip: u16 := 258
  const Plusle: u16 := 311
  const Minun: u16 := 312
  const Kecleon: u16 := 352
  const Duskull: u16 := 355
  const Turtwig: u16 := 387
  const Chimchar: u16 := 390
  const Piplup: u16 := 393
  const Snivy: u16 := 495
  const Tepig: u16 := 498
  const Oshawott: u16 := 501
  const Archen: u16 := 566
  const Deerling: u16 := 585
  const Tyrunt: u16 := 696
  const Amaura: u16 := 698
  const Pumpkaboo: u16 := 710

  /**
   * One byte per species, indexed by National Pokédex number (0 to 715).
   * Bit i set means an egg of that species may hatch in a ball of the
   * category whose ordinal is i. Bit 7 is stored as it appears and is
   * never read. The table is written as its 36 rows of 20 bytes (the last
   * row has 16), joined pairwise so that a lookup descends a balanced tree
   * of concatenations.
   */
  const Permit: seq<bv8> :=
    (
      (
        (((Permit000 + Permit020) + (Permit040 + Permit060)) + ((Permit080 + Permit100) + (Permit120 + (Permit140 + Permit160))))
      +
        (((Permit180 + Permit200) + (Permit220 + Permit240)) + ((Permit260 + Permit280) + (Permit300 + (Permit320 + Permit340))))
      )
    +
      (
        (((Permit360 + Permit380) + (Permit400 + Permit420)) + ((Permit440 + Permit460) + (Permit480 + (Permit500 + Permit520))))
      +
        (((Permit540 + Permit560) + (Permit580 + Permit600)) + ((Permit620 + Permit640) + (Permit660 + (Permit680 + Permit700))))
      )
    )

  const Permit000: seq<bv8> := [0x00, 0x03, 0x03, 0x03, 0x03, 0x03, 0x03, 0x03, 0x03, 0x03, 0x3B, 0x03, 0x03, 0x3B, 0x03, 0x03, 0x2F, 0x03, 0x03, 0x2F]  // 000 - 019
  const Permit020: seq<bv8> := [0x03, 0x2F, 0x03, 0x2F, 0x03, 0x03, 0x03, 0x2F, 0x03, 0x2F, 0x03, 0x03, 0x2F, 0x03, 0x03, 0x03, 0x03, 0x2B, 0x03, 0x03]  // 020 - 039
  const Permit040: seq<bv8> := [0x03, 0x2F, 0x03, 0x2F, 0x03, 0x03, 0x3F, 0x03, 0x3F, 0x03, 0x2F, 0x03, 0x2B, 0x03, 0x2F, 0x03, 0x2B, 0x03, 0x2B, 0x03]  // 040 - 059
  const Permit060: seq<bv8> := [0x2F, 0x03, 0x03, 0x2F, 0x03, 0x03, 0x2F, 0x03, 0x03, 0x2F, 0x03, 0x03, 0x2B, 0x03, 0x2F, 0x03, 0x03, 0x2F, 0x03, 0x2F]  // 060 - 079
  const Permit080: seq<bv8> := [0x03, 0x00, 0x00, 0x2F, 0x2F, 0x03, 0x2B, 0x03, 0x2F, 0x03, 0x2B, 0x03, 0x2F, 0x03, 0x03, 0x2F, 0x2F, 0x03, 0x2F, 0x03]  // 080 - 099
  const Permit100: seq<bv8> := [0x00, 0x00, 0x2F, 0x03, 0x2F, 0x03, 0x03, 0x03, 0x2F, 0x2F, 0x03, 0x2F, 0x03, 0x2F, 0x2F, 0x2F, 0x2B, 0x03, 0x2F, 0x03]  // 100 - 119
  const Permit120: seq<bv8> := [0x00, 0x00, 0x2F, 0x37, 0x03, 0x03, 0x03, 0x37, 0x00, 0x2F, 0x03, 0x2F, 0x00, 0x23, 0x03, 0x03, 0x03, 0x00, 0x23, 0x03]  // 120 - 139
  const Permit140: seq<bv8> := [0x23, 0x03, 0x23, 0x2B, 0x00, 0x00, 0x00, 0x2F, 0x03, 0x03, 0x00, 0x00, 0x81, 0x03, 0x03, 0x81, 0x03, 0x03, 0x81, 0x03]  // 140 - 159
  const Permit160: seq<bv8> := [0x03, 0x2F, 0x03, 0x2F, 0x03, 0x2F, 0x03, 0x2F, 0x03, 0x03, 0x2B, 0x03, 0x0F, 0x2F, 0x2F, 0x23, 0x03, 0x2F, 0x03, 0x2F]  // 160 - 179
  const Permit180: seq<bv8> := [0x03, 0x03, 0x03, 0x2F, 0x03, 0x2B, 0x03, 0x2F, 0x03, 0x07, 0x2F, 0x2F, 0x03, 0x2F, 0x2F, 0x03, 0x03, 0x03, 0x2F, 0x03]  // 180 - 199
  const Permit200: seq<bv8> := [0x2F, 0x00, 0x2F, 0x2F, 0x2F, 0x03, 0x2B, 0x2F, 0x03, 0x2F, 0x03, 0x2B, 0x03, 0x2F, 0x2F, 0x2B, 0x2F, 0x03, 0x2B, 0x03]  // 200 - 219
  const Permit220: seq<bv8> := [0x2B, 0x03, 0x2B, 0x2F, 0x03, 0x2B, 0x2B, 0x2B, 0x2F, 0x03, 0x03, 0x2F, 0x03, 0x00, 0x2F, 0x2F, 0x00, 0x03, 0x2B, 0x2F]  // 220 - 239
  const Permit240: seq<bv8> := [0x2F, 0x2F, 0x03, 0x00, 0x00, 0x00, 0x2F, 0x03, 0x03, 0x00, 0x00, 0x00, 0x00, 0x03, 0x03, 0x00, 0x03, 0x03, 0x00, 0x03]  // 240 - 259
  const Permit260: seq<bv8> := [0x03, 0x2B, 0x03, 0x2F, 0x07, 0x3B, 0x03, 0x03, 0x03, 0x03, 0x27, 0x03, 0x03, 0x2F, 0x03, 0x03, 0x2B, 0x03, 0x2B, 0x03]  // 260 - 279
  const Permit280: seq<bv8> := [0x2B, 0x03, 0x03, 0x27, 0x03, 0x2F, 0x03, 0x2F, 0x03, 0x03, 0x33, 0x03, 0x00, 0x2B, 0x03, 0x03, 0x2B, 0x03, 0x2F, 0x27]  // 280 - 299
  const Permit300: seq<bv8> := [0x23, 0x03, 0x2B, 0x2B, 0x27, 0x07, 0x03, 0x2F, 0x03, 0x27, 0x03, 0x2B, 0x2B, 0x37, 0x37, 0x27, 0x2F, 0x03, 0x27, 0x03]  // 300 - 319
  const Permit320: seq<bv8> := [0x23, 0x03, 0x2B, 0x03, 0x27, 0x2B, 0x03, 0x2F, 0x27, 0x03, 0x03, 0x27, 0x03, 0x2B, 0x03, 0x27, 0x27, 0x00, 0x00, 0x2F]  // 320 - 339
  const Permit340: seq<bv8> := [0x03, 0x27, 0x03, 0x00, 0x00, 0x23, 0x03, 0x23, 0x03, 0x23, 0x03, 0x23, 0x27, 0x27, 0x03, 0x27, 0x03, 0x27, 0x2F, 0x2B]  // 340 - 359
  const Permit360: seq<bv8> := [0x2F, 0x23, 0x03, 0x27, 0x03, 0x03, 0x2B, 0x03, 0x03, 0x2B, 0x2B, 0x27, 0x03, 0x03, 0x00, 0x00, 0x00, 0x00, 0x00, 0x00]  // 360 - 379
  const Permit380: seq<bv8> := [0x00, 0x00, 0x00, 0x00, 0x00, 0x00, 0x00, 0x00, 0x03, 0x03, 0x00, 0x03, 0x03, 0x00, 0x03, 0x03, 0x2F, 0x03, 0x03, 0x2F]  // 380 - 399
  const Permit400: seq<bv8> := [0x03, 0x3B, 0x03, 0x2F, 0x03, 0x03, 0x2F, 0x03, 0x23, 0x03, 0x23, 0x03, 0x2B, 0x03, 0x03, 0x3B, 0x03, 0x27, 0x2F, 0x03]  // 400 - 419
  const Permit420: seq<bv8> := [0x2B, 0x03, 0x23, 0x03, 0x03, 0x23, 0x03, 0x2B, 0x03, 0x03, 0x03, 0x23, 0x03, 0x2F, 0x23, 0x03, 0x00, 0x00, 0x2B, 0x2F]  // 420 - 439
  const Permit440: seq<bv8> := [0x2F, 0x2B, 0x23, 0x27, 0x03, 0x03, 0x2B, 0x27, 0x03, 0x27, 0x03, 0x27, 0x03, 0x27, 0x03, 0x2F, 0x23, 0x03, 0x2B, 0x23]  // 440 - 459
  const Permit460: seq<bv8> := [0x03, 0x03, 0x00, 0x03, 0x03, 0x03, 0x03, 0x03, 0x03, 0x03, 0x03, 0x03, 0x03, 0x03, 0x00, 0x03, 0x03, 0x03, 0x03, 0x00]  // 460 - 479
  const Permit480: seq<bv8> := [0x00, 0x00, 0x00, 0x00, 0x00, 0x00, 0x00, 0x00, 0x00, 0x00, 0x00, 0x00, 0x00, 0x00, 0x00, 0x00, 0x03, 0x03, 0x00, 0x03]  // 480 - 499
  const Permit500: seq<bv8> := [0x03, 0x00, 0x03, 0x03, 0x03, 0x03, 0x03, 0x03, 0x03, 0x03, 0x03, 0x03, 0x03, 0x03, 0x03, 0x03, 0x03, 0x23, 0x03, 0x23]  // 500 - 519
  const Permit520: seq<bv8> := [0x03, 0x03, 0x03, 0x03, 0x23, 0x03, 0x03, 0x03, 0x03, 0x23, 0x03, 0x23, 0x23, 0x03, 0x03, 0x23, 0x03, 0x03, 0x00, 0x00]  // 520 - 539
  const Permit540: seq<bv8> := [0x03, 0x03, 0x03, 0x23, 0x03, 0x03, 0x23, 0x03, 0x23, 0x03, 0x23, 0x23, 0x03, 0x03, 0x03, 0x03, 0x23, 0x23, 0x03, 0x23]  // 540 - 559
  const Permit560: seq<bv8> := [0x03, 0x23, 0x03, 0x03, 0x23, 0x03, 0x00, 0x03, 0x03, 0x03, 0x03, 0x03, 0x03, 0x03, 0x03, 0x03, 0x03, 0x23, 0x03, 0x03]  // 560 - 579
  const Permit580: seq<bv8> := [0x23, 0x03, 0x23, 0x03, 0x03, 0x83, 0x03, 0x23, 0x23, 0x03, 0x03, 0x03, 0x03, 0x03, 0x23, 0x23, 0x03, 0x03, 0x03, 0x00]  // 580 - 599
  const Permit600: seq<bv8> := [0x00, 0x00, 0x03, 0x03, 0x03, 0x23, 0x03, 0x03, 0x03, 0x03, 0x23, 0x03, 0x03, 0x03, 0x03, 0x00, 0x23, 0x03, 0x23, 0x03]  // 600 - 619
  const Permit620: seq<bv8> := [0x03, 0x23, 0x00, 0x00, 0x23, 0x03, 0x03, 0x00, 0x00, 0x03, 0x03, 0x23, 0x23, 0x03, 0x03, 0x03, 0x03, 0x03, 0x00, 0x00]  // 620 - 639
  const Permit640: seq<bv8> := [0x00, 0x00, 0x00, 0x00, 0x00, 0x00, 0x00, 0x00, 0x00, 0x00, 0x03, 0x03, 0x03, 0x03, 0x03, 0x03, 0x03, 0x03, 0x03, 0x03]  // 640 - 659
  const Permit660: seq<bv8> := [0x03, 0x03, 0x03, 0x03, 0x03, 0x03, 0x03, 0x03, 0x03, 0x03, 0x03, 0x03, 0x03, 0x03, 0x03, 0x03, 0x03, 0x03, 0x03, 0x03]  // 660 - 679
  const Permit680: seq<bv8> := [0x03, 0x03, 0x03, 0x03, 0x03, 0x03, 0x03, 0x03, 0x03, 0x03, 0x03, 0x03, 0x03, 0x03, 0x03, 0x03, 0x00, 0x03, 0x00, 0x03]  // 680 - 699
  const Permit700: seq<bv8> := [0x03, 0x03, 0x03, 0x00, 0x03, 0x03, 0x03, 0x03, 0x03, 0x03, 0x83, 0x03, 0x03, 0x03, 0x03, 0x03]  // 700 - 715

  /** Binary digit n of a natural number. */
  predicate Digit(v: nat, n: nat) {
    if n == 0 then v % 2 == 1 else Digit(v / 2, n - 1)
  }

  /** The mask test `(b & (1 << n)) != 0` reads binary digit n of b. */
  lemma {:induction false} MaskTestReadsDigit(b: bv8, n: nat)
    requires n < 8
    ensures (b & (1 << n) != 0) == Digit(b as nat, n)
  {
    if n == 0 {
      assert (b & 1) as int == b as int % 2;
    } else {
      assert (b & (1 << n) != 0) == ((b >> 1) & (1 << (n - 1)) != 0);
      assert (b >> 1) as int == b as int / 2;
      MaskTestReadsDigit(b >> 1, n - 1);
    }
  }

  /**
   * Whether the table grants category t to the species: binary digit
   * t.Ordinal() of its permit byte. A species the table does not reach, and
   * the untracked category None, are never granted.
   */
  predicate IsPermitted(species: u16, t: BallType) {
    && species as int < |Permit|
    && t != BallType.None
    && Digit(Permit[species] as nat, t.Ordinal())
  }

  /**
   * For a species inside the table and a tracked category, the digit reading
   * agrees with the source's mask test on the species' permit byte.
   */
  lemma IsPermittedIsMaskTest(species: u16, t: BallType)
    requires species as int < |Permit| && t != BallType.None
    ensures IsPermitted(species, t) <==> (Permit[species] & (1 << t.Ordinal())) != 0
  {
    MaskTestReadsDigit(Permit[species], t.Ordinal());
  }

  /** The breeding category of a ball; balls the rules do not track are None. */
  function GetPermitBit(ball: Ball): (t: BallType)
    ensures t == BallType.Gen3 <==>
      ball in {Ball.Ultra, Ball.Great, Ball.Poke, Ball.Net, Ball.Dive, Ball.Nest,
               Ball.Repeat, Ball.Timer, Ball.Luxury, Ball.Premier}
    ensures t == BallType.Gen4 <==> ball in {Ball.Dusk, Ball.Heal, Ball.Quick}
    ensures t == BallType.Apricorn <==>
      ball in {Ball.Fast, Ball.Level, Ball.Lure, Ball.Heavy, Ball.Love, Ball.Friend, Ball.Moon}
    ensures t == BallType.Safari <==> ball == Ball.Safari
    ensures t == BallType.Sport <==> ball == Ball.Sport
    ensures t == BallType.Dream <==> ball == Ball.Dream
    ensures t == BallType.None <==> ball in {Ball.Master, Ball.Cherish, Ball.Beast, Ball.Other}
  {
    match ball
    case Ultra => BallType.Gen3
    case Great => BallType.Gen3
    case Poke => BallType.Gen3
    case Safari => BallType.Safari

    case Net => BallType.Gen3
    case Dive => BallType.Gen3
    case Nest => BallType.Gen3
    case Repeat => BallType.Gen3
    case Timer => BallType.Gen3
    case Luxury => BallType.Gen3
    case Premier => BallType.Gen3

    case Dusk => BallType.Gen4
    case Heal => BallType.Gen4
    case Quick => BallType.Gen4

    case Fast => BallType.Apricorn
    case Level => BallType.Apricorn
    case Lure => BallType.Apricorn
    case Heavy => BallType.Apricorn
    case Love => BallType.Apricorn
    case Friend => BallType.Apricorn
    case Moon => BallType.Apricorn

    case Sport => BallType.Sport
    case Dream => BallType.Dream
    case _ => BallType.None
  }

  /** Whether the ability flag marks anything but the hidden ability. */
  predicate IsNotHidden(abilityNumber: int) {
    abilityNumber != HiddenAbilityNumber
  }

  /** Species that cannot hatch in a Generation 4 ball with their hidden ability. */
  predicate IsBannedHiddenGen4(species: u16, form: u8) {
    if species in {Chikorita, Cyndaquil, Totodile, Treecko, Torchic, Mudkip,
                   Turtwig, Chimchar, Piplup, Snivy, Tepig, Oshawott} then true
    // every Deerling form but Spring
    else if species == Deerling then form != 0
    // obtained only as fossils
    else species in {Archen, Tyrunt, Amaura}
  }

  /**
   * Species that may hatch in a Generation 3 ball and may have their hidden
   * ability, but not both at once.
   */
  predicate IsBannedHiddenGen3(species: u16, form: u8) {
    if species in {Chikorita, Cyndaquil, Totodile} then true
    // every Deerling form but Spring
    else if species == Deerling then form != 0
    // Super Size Pumpkaboo only
    else if species == Pumpkaboo then form == 3
    else false
  }

  /** Species that cannot hatch in a Dream Ball with their hidden ability. */
  predicate IsBannedHiddenDream(species: u16) {
    species in {Plusle, Minun, Kecleon, Duskull}
  }

  /**
   * Whether the specimen's ability is consistent with an egg of the given
   * category: only the hidden ability is ever refused.
   */
  function IsAbilityAllowed(species: u16, form: u8, pk: Pkm, permitBit: BallType): (ok: bool)
    ensures pk.abilityNumber != HiddenAbilityNumber ==> ok
    ensures permitBit in {BallType.Safari, BallType.Apricorn, BallType.Sport} ==>
      (ok <==> pk.abilityNumber != HiddenAbilityNumber)
    ensures permitBit == BallType.None ==> ok
  {
    match permitBit
    case Gen3 => IsNotHidden(pk.abilityNumber) || !IsBannedHiddenGen3(species, form)
    case Gen4 => IsNotHidden(pk.abilityNumber) || !IsBannedHiddenGen4(species, form)
    case Safari => IsNotHidden(pk.abilityNumber)
    case Apricorn => IsNotHidden(pk.abilityNumber)
    case Sport => IsNotHidden(pk.abilityNumber)
    case Dream => IsNotHidden(pk.abilityNumber) || !IsBannedHiddenDream(species)
    case _ => true
  }

  /**
   * Whether an egg of the species could hatch in the ball. The Poké Ball is
   * always allowed; any other ball needs its category's bit in the species'
   * permit byte. The form is not read.
   */
  function CanBreedWithBall(species: u16, form: u8, ball: Ball): (ok: bool)
    ensures ok <==> ball == Ball.Poke || IsPermitted(species, GetPermitBit(ball))
    ensures ball == Ball.Poke ==> ok
    ensures ball != Ball.Poke && species as int >= |Permit| ==> !ok
    ensures ball != Ball.Poke && GetPermitBit(ball) == BallType.None ==> !ok
  {
    // Eagerly accept the most common case.
    if ball == Ball.Poke then true
    else if species as int >= |Permit| then false
    else
      var permitBit := GetPermitBit(ball);
      if permitBit == BallType.None then false
      else
        var permit := Permit[species];
        MaskTestReadsDigit(permit, permitBit.Ordinal());
        if permit & (1 << permitBit.Ordinal()) == 0 then false
        else true
  }

  /**
   * The same decision for a specimen, which also checks its hidden ability.
   * isAbilityPatchPossible(format, species) says whether an Ability Patch
   * could explain the specimen's ability; it is not part of this model.
   */
  function CanBreedWithBallFor(species: u16, form: u8, ball: Ball, pk: Pkm,
                               isAbilityPatchPossible: (int, u16) -> bool): (r: BallInheritanceResult)
    ensures ball == Ball.Poke ==> r == Valid
    ensures (r != Invalid) == CanBreedWithBall(species, form, ball)
    ensures r == BadAbility ==>
      pk.abilityNumber == HiddenAbilityNumber && !isAbilityPatchPossible(pk.format, species)
    ensures r == BadAbility <==>
      && CanBreedWithBall(species, form, ball)
      && ball != Ball.Poke
      && !isAbilityPatchPossible(pk.format, species)
      && !IsAbilityAllowed(species, form, pk, GetPermitBit(ball))
    ensures CanBreedWithBall(species, form, ball)
            && (pk.abilityNumber != HiddenAbilityNumber || isAbilityPatchPossible(pk.format, species))
            ==> r == Valid
  {
    // Eagerly accept the most common case.
    if ball == Ball.Poke then Valid
    else if species as int >= |Permit| then Invalid
    else
      var permitBit := GetPermitBit(ball);
      if permitBit == BallType.None then Invalid
      else
        var permit := Permit[species];
        if permit & (1 << permitBit.Ordinal()) == 0 then Invalid
        else if !isAbilityPatchPossible(pk.format, species)
                && !IsAbilityAllowed(species, form, pk, permitBit) then BadAbility
        else Valid
  }
}
