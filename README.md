# Generation 6 ball inheritance

A Dafny model of PKHeX's ball-inheritance permissions for the Generation 6
games (`BallContext6`). Given a species, a form and a ball, it decides
whether a bred egg of that species could have hatched in that ball. Given a
specimen as well, it also decides whether the specimen's hidden-ability flag
is consistent with that ball.

The model has two modules:

- `BallContext6` (`ball_context6.dfy`) holds the data and the decisions:
  - the `Ball` and `BallType` enums;
  - the 716-byte `Permit` table, one byte per National Pokédex number,
    transcribed byte for byte;
  - the classifier `GetPermitBit`;
  - the hidden-ability exception lists `IsBannedHiddenGen3`,
    `IsBannedHiddenGen4`, `IsBannedHiddenDream` and `IsAbilityAllowed`;
  - the two entry points. They are `CanBreedWithBall`, which returns a
    boolean, and `CanBreedWithBallFor`, the specimen overload, which
    returns `Valid`, `Invalid` or `BadAbility`.
- `BallContext6Properties` (`ball_context6_properties.dfy`) holds lemmas
  that relate several calls, plus facts about particular table entries.

Everything is a pure function, as in the source. There, each helper is an
expression-bodied member over immutable data, and all of them but
`IsNotHidden` are switches.

Mapping of the source's types:

- `ushort` species becomes `u16`. `byte` form becomes `u8`.
- The table is a `seq<bv8>`. The source's test `(permit & (1 << bit)) != 0`
  is kept as written on `bv8`.
- `IsPermitted` is an independent reading of the table. It takes binary
  digit number *ordinal* of the permit byte. The lemmas `MaskTestReadsDigit`
  and `IsPermittedIsMaskTest` connect it to the mask test.
- The table is written as its 36 source rows, each a named constant.
  `Permit` joins them as a balanced sum, which keeps every lookup cheap for
  the verifier. The sum still has length 716, with the same bytes in the
  same order.
- The specimen is the record `Pkm(format, abilityNumber)`. These are the
  only two fields of `PKM` the source reads.
- `BallContextHOME.IsAbilityPatchPossible` is passed in as a function
  parameter `isAbilityPatchPossible: (int, u16) -> bool`, and no property
  assumes anything about it.

Points in the code that are easy to misread:

- Only `Poke` takes the fast path. It gives `true`/`Valid` for every
  species, including species outside the table.
- Any other ball that the classifier maps to `None` (Master, Cherish,
  Beast, every unlisted ball) is rejected with `false`/`Invalid`.
- `AbilityNumber` is a flag (1, 2 or 4), so 4 marks the hidden ability.
- The classifier's `Poke => Gen3` arm cannot be reached from either entry
  point.

Reading the table against the exception lists shows that 15 of the 16
Generation 4 exceptions cannot be reached:

- Chikorita, Cyndaquil and Totodile have byte `0x81`, so Generation 3 balls
  only.
- Treecko, Torchic, Mudkip, Turtwig, Chimchar, Piplup, Snivy, Tepig,
  Oshawott, Archen, Tyrunt and Amaura have byte `0x00`.

So a Generation 4 ball never yields `BadAbility` except for non-Spring
Deerling (`Gen4BadAbilityOnlyForDeerling`). The extra entries change no
result; they are only redundant.

## Model

| member | source | states |
|---|---|---|
| `BallContext6.BallType.Ordinal` | PKHeX.Core/Legality/Verifiers/Ball/BallContext6.cs:182-192 | the six tracked categories have ordinals below 6 and only `None` has ordinal 9 |
| `BallContext6.OrdinalInjective` | PKHeX.Core/Legality/Verifiers/Ball/BallContext6.cs:182-192 | no two categories share an ordinal, so each tracked category owns its own bit of a permit byte |
| `BallContext6.MaskTestReadsDigit` | PKHeX.Core/Legality/Verifiers/Ball/BallContext6.cs:28 | for every byte and bit position below 8, the mask test `(b & (1 << n)) != 0` holds exactly when binary digit n of the byte's value is 1 |
| `BallContext6.GetPermitBit` | PKHeX.Core/Legality/Verifiers/Ball/BallContext6.cs:110-140 | each category holds exactly its balls: Gen3 holds Ultra, Great, Poke, Net, Dive, Nest, Repeat, Timer, Luxury and Premier; Gen4 holds Dusk, Heal and Quick; Apricorn holds Fast, Level, Lure, Heavy, Love, Friend and Moon; Safari, Sport and Dream each hold their namesake ball; `None` holds Master, Cherish, Beast and the unlisted balls |
| `BallContext6.IsPermittedIsMaskTest` | PKHeX.Core/Legality/Verifiers/Ball/BallContext6.cs:21-28 | for a species inside the table and a tracked category, the digit reading `IsPermitted` agrees with the source's mask test on that species' permit byte |
| `BallContext6.IsAbilityAllowed` | PKHeX.Core/Legality/Verifiers/Ball/BallContext6.cs:54-63 | a non-hidden ability is always allowed; for Safari, Apricorn and Sport it is allowed exactly when it is not hidden; the `None` category allows everything (the Gen3, Gen4 and Dream arms are pinned down by the three `...BadAbilityExactlyListed` lemmas) |
| `BallContext6Properties.OnlyFlagFourIsHidden` | PKHeX.Core/Legality/Verifiers/Ball/BallContext6.cs:65 | pins `IsNotHidden`: an ability flag other than 4 never gives `BadAbility`, and flag 4 does (hidden Chikorita in a Great Ball with no patch) |
| `BallContext6Properties.Gen3BadAbilityExactlyListed` | PKHeX.Core/Legality/Verifiers/Ball/BallContext6.cs:90-99 | pins `IsBannedHiddenGen3`: with a non-Poké Generation 3 ball, the hidden flag and no patch: `BadAbility` exactly for Chikorita, Cyndaquil, Totodile, Deerling in a form other than 0 and Pumpkaboo in form 3; `Valid` for every other permitted species; `Invalid` otherwise |
| `BallContext6Properties.Gen4BadAbilityExactlyListed` | PKHeX.Core/Legality/Verifiers/Ball/BallContext6.cs:67-88 | pins `IsBannedHiddenGen4`: with a Generation 4 ball, the hidden flag and no patch: `BadAbility` exactly for a permitted species on the 15-species list or Deerling in a form other than 0; `Valid` for every other permitted species; `Invalid` otherwise |
| `BallContext6Properties.DreamBadAbilityExactlyListed` | PKHeX.Core/Legality/Verifiers/Ball/BallContext6.cs:101-108 | pins `IsBannedHiddenDream`: with a Dream Ball, the hidden flag and no patch: `BadAbility` exactly for permitted Plusle, Minun, Kecleon and Duskull, in any form; `Valid` for every other permitted species; `Invalid` otherwise |
| `BallContext6.CanBreedWithBall` | PKHeX.Core/Legality/Verifiers/Ball/BallContext6.cs:15-31 | true exactly for the Poké Ball or when the table grants the ball's category to the species; so the Poké Ball is always true, and every other ball is false for species at or beyond 716 and for balls classified `None` |
| `BallContext6.CanBreedWithBallFor` | PKHeX.Core/Legality/Verifiers/Ball/BallContext6.cs:33-52 | the Poké Ball gives `Valid`; the result is not `Invalid` exactly when the boolean overload returns true; `BadAbility` needs the hidden flag 4 and no patch, and happens exactly when a permitted non-Poké ball fails the ability check; with no hidden flag, or with a patch, a permitted pair is `Valid` |
| `BallContext6Properties.BooleanIgnoresForm` | PKHeX.Core/Legality/Verifiers/Ball/BallContext6.cs:15-31 | the boolean overload gives the same answer for any two forms |
| `BallContext6Properties.FormMattersOnlyForDeerlingAndPumpkaboo` | PKHeX.Core/Legality/Verifiers/Ball/BallContext6.cs:67-108 | for every species other than Deerling and Pumpkaboo, the specimen overload gives the same result for any two forms |
| `BallContext6Properties.DreamIgnoresForm` | PKHeX.Core/Legality/Verifiers/Ball/BallContext6.cs:61 | with a Dream Ball the specimen overload gives the same result for any two forms, for every species |
| `BallContext6Properties.NoHiddenAbilityFromSafariApricornSport` | PKHeX.Core/Legality/Verifiers/Ball/BallContext6.cs:58-60 | with a Safari, Apricorn or Sport ball, the hidden flag and no patch, every species the table permits is `BadAbility` and every other is `Invalid`: no species is exempt |
| `BallContext6Properties.ZeroPermitOnlyPokeBall` | PKHeX.Core/Legality/Verifiers/Ball/BallContext6.cs:27-29 | a species whose permit byte is 0 is accepted by the Poké Ball only, and every other ball gives `Invalid` |
| `BallContext6Properties.PermitLength` | PKHeX.Core/Legality/Verifiers/Ball/BallContext6.cs:142-180 | the `Permit` table has 716 entries, species 0 to 715; 21 of its bytes are stated by `DeerlingAndPumpkabooPermits`, `Gen4ExceptionsNotGen4Permitted`, `BulbasaurPermits` and `SafariApricornSportBits`, and the others are the literal transcription of :144-179 |
| `BallContext6Properties.DeerlingAndPumpkabooPermits` | PKHeX.Core/Legality/Verifiers/Ball/BallContext6.cs:173-179 | Deerling and Pumpkaboo both have byte 0x83, which grants exactly the Generation 3 and Generation 4 categories (bit 7 grants nothing) |
| `BallContext6Properties.DeerlingHiddenAbilityForm` | PKHeX.Core/Legality/Verifiers/Ball/BallContext6.cs:81 | a hidden-ability Deerling from a non-Poké Generation 3 or 4 ball, with no patch, is `BadAbility` exactly when its form is not 0 (Spring), and `Valid` otherwise |
| `BallContext6Properties.PumpkabooHiddenAbilityForm` | PKHeX.Core/Legality/Verifiers/Ball/BallContext6.cs:97 | a hidden-ability Pumpkaboo from a non-Poké Generation 3 ball, with no patch, is `BadAbility` exactly in form 3 (Super Size); from a Generation 4 ball it is always `Valid` |
| `BallContext6Properties.Gen4BadAbilityOnlyForDeerling` | PKHeX.Core/Legality/Verifiers/Ball/BallContext6.cs:81 | with a Generation 4 ball the specimen overload never returns `BadAbility` unless the species is Deerling in a form other than 0: the other list entries cannot be reached |
| `BallContext6Properties.Gen4ExceptionsNotGen4Permitted` | PKHeX.Core/Legality/Verifiers/Ball/BallContext6.cs:151-178 | none of the 15 species on the Generation 4 exception list other than Deerling is granted the Generation 4 category by the table |
| `BallContext6Properties.DreamExceptionsReachable` | PKHeX.Core/Legality/Verifiers/Ball/BallContext6.cs:101-108 | Plusle, Minun, Kecleon and Duskull in a Dream Ball with the hidden flag and no patch are `BadAbility` in every form, so each entry is reachable |
| `BallContext6Properties.Gen3StarterHiddenAbility` | PKHeX.Core/Legality/Verifiers/Ball/BallContext6.cs:90-95 | hidden-ability Chikorita, Cyndaquil and Totodile from a non-Poké Generation 3 ball, with no patch, are `BadAbility` |
| `BallContext6Properties.BulbasaurPermits` | PKHeX.Core/Legality/Verifiers/Ball/BallContext6.cs:144 | Bulbasaur (byte 0x03) is accepted by a ball exactly when it is the Poké Ball or a Generation 3 or Generation 4 ball, and is `Invalid` in a Safari Ball |
| `BallContext6Properties.SafariApricornSportBits` | PKHeX.Core/Legality/Verifiers/Ball/BallContext6.cs:144-150 | Caterpie (0x3B) is granted every category but Safari, Pidgey (0x2F) every one but Sport, and Scyther (0x37) every one but Apricorn; so Safari, Apricorn and Sport own bits 2, 3 and 4, as the enum values at :186-188 say |

## Left out

- `BallContextHOME.IsAbilityPatchPossible`: a call into code that is not part of this model. It is a function parameter, and no property assumes anything about it.
- `PKM`: only the two fields read (`Format`, `AbilityNumber`) are modelled. Record parsing and checksums are not part of this model.
- The `IBallContext` interface and the `Instance` singleton: dispatch with no behaviour of its own.
- The rest of the `Ball` and `Species` enums: only the balls the classifier names (plus Master, Cherish, Beast and a catch-all `Other`) and the species the exception lists name are modelled. In the real enums these are numeric values; here they are constructors and constants.
- Bit 7 of the permit bytes (`0x81`, `0x83`): no code reads it, so it is stored as written and given no meaning.
