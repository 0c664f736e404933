/**
 * Properties of the Generation 6 ball-inheritance rules that relate several
 * calls, and facts about particular entries of the permit table.
 */
module BallContext6Properties {
  import opened BallContext6

  /** The boolean check never reads the form. */
  lemma BooleanIgnoresForm(species: u16, form1: u8, form2: u8, ball: Ball)
    ensures CanBreedWithBall(species, form1, ball) == CanBreedWithBall(species, form2, ball)
  {
  }

  /** Only Deerling and Pumpkaboo have form-conditioned exceptions. */
  lemma FormMattersOnlyForDeerlingAndPumpkaboo(species: u16, form1: u8, form2: u8, ball: Ball, pk: Pkm,
                                               patch: (int, u16) -> bool)
    requires species != Deerling && species != Pumpkaboo
    ensures CanBreedWithBallFor(species, form1, ball, pk, patch)
         == CanBreedWithBallFor(species, form2, ball, pk, patch)
  {
  }

  /** The Dream Ball exceptions name species only. */
  lemma DreamIgnoresForm(species: u16, form1: u8, form2: u8, pk: Pkm, patch: (int, u16) -> bool)
    ensures CanBreedWithBallFor(species, form1, Ball.Dream, pk, patch)
         == CanBreedWithBallFor(species, form2, Ball.Dream, pk, patch)
  {
  }

  /**
   * An egg from a Safari, Apricorn or Sport Ball never has its hidden
   * ability unless a patch explains it; no species is exempt.
   */
  lemma NoHiddenAbilityFromSafariApricornSport(species: u16, form: u8, ball: Ball, pk: Pkm,
                                               patch: (int, u16) -> bool)
    requires GetPermitBit(ball) in {BallType.Safari, BallType.Apricorn, BallType.Sport}
    requires pk.abilityNumber == HiddenAbilityNumber && !patch(pk.format, species)
    ensures CanBreedWithBallFor(species, form, ball, pk, patch)
         == if CanBreedWithBall(species, form, ball) then BadAbility else Invalid
  {
  }

  /** A species whose permit byte is zero hatches only in a Poké Ball. */
  lemma ZeroPermitOnlyPokeBall(species: u16, form: u8, ball: Ball, pk: Pkm, patch: (int, u16) -> bool)
    requires species as int < |Permit| && Permit[species] == 0
    ensures CanBreedWithBall(species, form, ball) <==> ball == Ball.Poke
    ensures CanBreedWithBallFor(species, form, ball, pk, patch) == (if ball == Ball.Poke then Valid else Invalid)
  {
  }

  /** The table covers species 0 to 715. */
  lemma PermitLength()
    ensures |Permit| == 716
  {
  }

  /** 0x83 grants the Generation 3 and Generation 4 balls only; bit 7 is ignored. */
  lemma DeerlingAndPumpkabooPermits()
    ensures Permit[Deerling] == 0x83 && Permit[Pumpkaboo] == 0x83
    ensures forall t: BallType :: IsPermitted(Deerling, t) <==> t in {BallType.Gen3, BallType.Gen4}
    ensures forall t: BallType :: IsPermitted(Pumpkaboo, t) <==> t in {BallType.Gen3, BallType.Gen4}
  {
    assert Permit[Deerling] == 0x83 && Permit[Pumpkaboo] == 0x83;
    assert Digit(0x83, 0) && Digit(0x83, 1);
    assert !Digit(0x83, 2) && !Digit(0x83, 3) && !Digit(0x83, 4) && !Digit(0x83, 5);
  }

  /**
   * Deerling from a Generation 3 or 4 ball with its hidden ability and no
   * patch is refused exactly when it is not the Spring form.
   */
  lemma DeerlingHiddenAbilityForm(form: u8, ball: Ball, pk: Pkm, patch: (int, u16) -> bool)
    requires ball != Ball.Poke && GetPermitBit(ball) in {BallType.Gen3, BallType.Gen4}
    requires pk.abilityNumber == HiddenAbilityNumber && !patch(pk.format, Deerling)
    ensures CanBreedWithBallFor(Deerling, form, ball, pk, patch) == (if form != 0 then BadAbility else Valid)
  {
  }

  /**
   * Pumpkaboo from a Generation 3 ball with its hidden ability and no patch
   * is refused exactly in its Super Size form; a Generation 4 ball always
   * accepts it.
   */
  lemma PumpkabooHiddenAbilityForm(form: u8, ball: Ball, pk: Pkm, patch: (int, u16) -> bool)
    requires ball != Ball.Poke && GetPermitBit(ball) in {BallType.Gen3, BallType.Gen4}
    requires pk.abilityNumber == HiddenAbilityNumber && !patch(pk.format, Pumpkaboo)
    ensures CanBreedWithBallFor(Pumpkaboo, form, ball, pk, patch)
         == (if GetPermitBit(ball) == BallType.Gen3 && form == 3 then BadAbility else Valid)
  {
  }

  /**
   * Of the Generation 4 exceptions only Deerling's can be reached: every
   * other species on that list has its Generation 4 bit clear.
   */
  lemma Gen4BadAbilityOnlyForDeerling(species: u16, form: u8, ball: Ball, pk: Pkm, patch: (int, u16) -> bool)
    requires GetPermitBit(ball) == BallType.Gen4
    requires species != Deerling || form == 0
    ensures CanBreedWithBallFor(species, form, ball, pk, patch) != BadAbility
  {
    if IsBannedHiddenGen4(species, form) {
      Gen4ExceptionsNotGen4Permitted(species);
    }
  }

  /**
   * Every species on the Generation 4 exception list except Deerling has
   * permit byte 0x00 or 0x81, neither of which sets the Generation 4 bit.
   */
  lemma Gen4ExceptionsNotGen4Permitted(species: u16)
    requires species in {Chikorita, Cyndaquil, Totodile, Treecko, Torchic, Mudkip,
                         Turtwig, Chimchar, Piplup, Snivy, Tepig, Oshawott,
                         Archen, Tyrunt, Amaura}
    ensures !IsPermitted(species, BallType.Gen4)
  {
    assert !Digit(0x00, 1) && !Digit(0x81, 1);
    if species == Chikorita { assert Permit[Chikorita] == 0x81; }
    else if species == Cyndaquil { assert Permit[Cyndaquil] == 0x81; }
    else if species == Totodile { assert Permit[Totodile] == 0x81; }
    else if species == Treecko { assert Permit[Treecko] == 0x00; }
    else if species == Torchic { assert Permit[Torchic] == 0x00; }
    else if species == Mudkip { assert Permit[Mudkip] == 0x00; }
    else if species == Turtwig { assert Permit[Turtwig] == 0x00; }
    else if species == Chimchar { assert Permit[Chimchar] == 0x00; }
    else if species == Piplup { assert Permit[Piplup] == 0x00; }
    else if species == Snivy { assert Permit[Snivy] == 0x00; }
    else if species == Tepig { assert Permit[Tepig] == 0x00; }
    else if species == Oshawott { assert Permit[Oshawott] == 0x00; }
    else if species == Archen { assert Permit[Archen] == 0x00; }
    else if species == Tyrunt { assert Permit[Tyrunt] == 0x00; }
    else { assert Permit[Amaura] == 0x00; }
  }

  /** The four Dream Ball exceptions are all reachable, in every form. */
  lemma DreamExceptionsReachable(species: u16, form: u8, pk: Pkm, patch: (int, u16) -> bool)
    requires species in {Plusle, Minun, Kecleon, Duskull}
    requires pk.abilityNumber == HiddenAbilityNumber && !patch(pk.format, species)
    ensures CanBreedWithBallFor(species, form, Ball.Dream, pk, patch) == BadAbility
  {
  }

  /** A Generation 3 ball with hidden Chikorita, Cyndaquil or Totodile is refused. */
  lemma Gen3StarterHiddenAbility(species: u16, form: u8, ball: Ball, pk: Pkm, patch: (int, u16) -> bool)
    requires species in {Chikorita, Cyndaquil, Totodile}
    requires ball != Ball.Poke && GetPermitBit(ball) == BallType.Gen3
    requires pk.abilityNumber == HiddenAbilityNumber && !patch(pk.format, species)
    ensures CanBreedWithBallFor(species, form, ball, pk, patch) == BadAbility
  {
  }

  /**
   * Bulbasaur (0x03) hatches in the Poké Ball and in every Generation 3 and
   * Generation 4 ball, and in no other ball.
   */
  lemma BulbasaurPermits(form: u8, ball: Ball, pk: Pkm, patch: (int, u16) -> bool)
    ensures Permit[1] == 0x03
    ensures CanBreedWithBall(1, form, ball)
        <==> ball == Ball.Poke || GetPermitBit(ball) in {BallType.Gen3, BallType.Gen4}
    ensures CanBreedWithBallFor(1, form, Ball.Safari, pk, patch) == Invalid
  {
  }

  /**
   * Caterpie (10, 0x3B), Pidgey (16, 0x2F) and Scyther (123, 0x37) each miss
   * exactly one of the Safari, Sport and Apricorn bits, so they fix which bit
   * each of those categories owns.
   */
  lemma SafariApricornSportBits()
    ensures Permit[10] == 0x3B && Permit[16] == 0x2F && Permit[123] == 0x37
    ensures forall t: BallType :: IsPermitted(10, t) <==>
      t in {BallType.Gen3, BallType.Gen4, BallType.Apricorn, BallType.Sport, BallType.Dream}
    ensures forall t: BallType :: IsPermitted(16, t) <==>
      t in {BallType.Gen3, BallType.Gen4, BallType.Safari, BallType.Apricorn, BallType.Dream}
    ensures forall t: BallType :: IsPermitted(123, t) <==>
      t in {BallType.Gen3, BallType.Gen4, BallType.Safari, BallType.Sport, BallType.Dream}
  {
    assert Permit[10] == 0x3B && Permit[16] == 0x2F && Permit[123] == 0x37;
    assert Digit(0x3B, 0) && Digit(0x3B, 1) && !Digit(0x3B, 2) && Digit(0x3B, 3) && Digit(0x3B, 4) && Digit(0x3B, 5);
    assert Digit(0x2F, 0) && Digit(0x2F, 1) && Digit(0x2F, 2) && Digit(0x2F, 3) && !Digit(0x2F, 4) && Digit(0x2F, 5);
    assert Digit(0x37, 0) && Digit(0x37, 1) && Digit(0x37, 2) && !Digit(0x37, 3) && Digit(0x37, 4) && Digit(0x37, 5);
  }

  /**
   * Ability flags other than 4 never give BadAbility, and flag 4 does: a
   * hidden-ability Chikorita in a Great Ball with no patch is refused.
   */
  lemma OnlyFlagFourIsHidden(species: u16, form: u8, ball: Ball, format: int, abilityNumber: int,
                             patch: (int, u16) -> bool)
    requires abilityNumber != HiddenAbilityNumber
    ensures CanBreedWithBallFor(species, form, ball, Pkm(format, abilityNumber), patch) != BadAbility
    ensures CanBreedWithBallFor(Chikorita, form, Ball.Great, Pkm(format, HiddenAbilityNumber),
                                (f: int, s: u16) => false) == BadAbility
  {
  }

  /**
   * With a non-Poke Generation 3 ball, the hidden flag and no patch, the
   * result is BadAbility exactly for the listed species and forms, Valid for
   * every other permitted species, and Invalid for the rest.
   */
  lemma Gen3BadAbilityExactlyListed(species: u16, form: u8, ball: Ball, pk: Pkm, patch: (int, u16) -> bool)
    requires ball != Ball.Poke && GetPermitBit(ball) == BallType.Gen3
    requires pk.abilityNumber == HiddenAbilityNumber && !patch(pk.format, species)
    ensures CanBreedWithBallFor(species, form, ball, pk, patch)
         == if !CanBreedWithBall(species, form, ball) then Invalid
            else if || species in {Chikorita, Cyndaquil, Totodile}
                    || (species == Deerling && form != 0)
                    || (species == Pumpkaboo && form == 3)
            then BadAbility
            else Valid
  {
  }

  /**
   * With a Generation 4 ball, the hidden flag and no patch, the result is
   * BadAbility exactly for the listed species and forms, Valid for every
   * other permitted species, and Invalid for the rest.
   */
  lemma Gen4BadAbilityExactlyListed(species: u16, form: u8, ball: Ball, pk: Pkm, patch: (int, u16) -> bool)
    requires GetPermitBit(ball) == BallType.Gen4
    requires pk.abilityNumber == HiddenAbilityNumber && !patch(pk.format, species)
    ensures CanBreedWithBallFor(species, form, ball, pk, patch)
         == if !CanBreedWithBall(species, form, ball) then Invalid
            else if || species in {Chikorita, Cyndaquil, Totodile, Treecko, Torchic, Mudkip,
                                   Turtwig, Chimchar, Piplup, Snivy, Tepig, Oshawott,
                                   Archen, Tyrunt, Amaura}
                    || (species == Deerling && form != 0)
            then BadAbility
            else Valid
  {
  }

  /**
   * With a Dream Ball, the hidden flag and no patch, the result is BadAbility
   * exactly for the four listed species, Valid for every other permitted
   * species, and Invalid for the rest.
   */
  lemma DreamBadAbilityExactlyListed(species: u16, form: u8, pk: Pkm, patch: (int, u16) -> bool)
    requires pk.abilityNumber == HiddenAbilityNumber && !patch(pk.format, species)
    ensures CanBreedWithBallFor(species, form, Ball.Dream, pk, patch)
         == if !CanBreedWithBall(species, form, Ball.Dream) then Invalid
            else if species in {Plusle, Minun, Kecleon, Duskull} then BadAbility
            else Valid
  {
  }
}
