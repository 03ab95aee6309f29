/** Interest and talker schedules of the mesh benchmark (voice-mesh-bench/src/main.rs), over unbounded naturals. */
module Interest {
  import opened Arithmetic
  import opened Packet
  import opened Metrics
  import opened Residues

  const GAME_TURN_FRAMES: nat := 75
  const GAME_TALK_FRAMES: nat := 60
  const GAME_OVERLAP_FRAMES: nat := 5
  const GAME_INTEREST_EPOCH_FRAMES: nat := 150
  const STRESS_CYCLE_FRAMES: nat := 600
  const STRESS_WINDOW_START_FRAMES: nat := 200
  const STRESS_WINDOW_END_FRAMES: nat := 400
  const CROWD_BURST_START_FRAMES: nat := 250
  const CROWD_BURST_END_FRAMES: nat := 300
  const BOUNDARY_OSCILLATION_FRAMES: nat := 5

  datatype Scenario = Baseline | GameInterest
  datatype Profile = Rotating | CrowdBurst | GroupMerge | BoundaryOscillation

  datatype Config = Config(scenario: Scenario, profile: Profile, participants: nat, talkers: nat, listeners: nat, seed: U64)

  /** What the command line accepts for the game-interest scenario, but for the guard on boundary-oscillation. */
  predicate ValidGame(c: Config) {
    && c.scenario == GameInterest
    && 2 <= c.participants <= 64
    && 1 <= c.talkers <= c.participants && c.talkers <= 8
    && 1 <= c.listeners < c.participants
  }

  predicate StressActive(c: Config, frame: nat) {
    c.scenario == GameInterest &&
    var phase := frame % STRESS_CYCLE_FRAMES;
    match c.profile
    case Rotating => false
    case CrowdBurst => CROWD_BURST_START_FRAMES <= phase < CROWD_BURST_END_FRAMES
    case GroupMerge => STRESS_WINDOW_START_FRAMES <= phase < STRESS_WINDOW_END_FRAMES
    case BoundaryOscillation => STRESS_WINDOW_START_FRAMES <= phase < STRESS_WINDOW_END_FRAMES
  }

  function Hash(seed: U64, speaker: nat, epoch: nat): nat {
    Mix64((seed as bv64)
          ^ ((speaker % 0x1_0000_0000_0000_0000) as bv64 * 0x9e37_79b9_7f4a_7c15)
          ^ ((epoch % 0x1_0000_0000_0000_0000) as bv64 * 0xbf58_476d_1ce4_e5b9)) as nat
  }

  /** Which of the two boundary listener sets a stressed frame uses. */
  function Alternate(frame: nat): nat
    requires STRESS_WINDOW_START_FRAMES <= frame % STRESS_CYCLE_FRAMES
  {
    ((frame % STRESS_CYCLE_FRAMES - STRESS_WINDOW_START_FRAMES) / BOUNDARY_OSCILLATION_FRAMES) % 2
  }

  function Base(c: Config, speaker: nat): (base: nat)
    requires c.participants >= 2
    ensures base < c.participants - 1
  {
    Residue(Hash(c.seed, speaker, 0), c.participants - 1)
  }

  function Rotation(c: Config, frame: nat, speaker: nat): nat
    requires c.participants >= 2
  {
    hide Hash, Residue;
    var available := c.participants - 1;
    if c.profile == BoundaryOscillation then
      var base := Base(c, speaker);
      if StressActive(c, frame) then Residue(base + (if Alternate(frame) == 1 then c.listeners else 0), available) else base
    else Residue(Hash(c.seed, speaker, frame / GAME_INTEREST_EPOCH_FRAMES), available)
  }

  /** The listener at `offset` places after the speaker, one of the others. */
  function ListenerAt(speaker: nat, offset: nat, participants: nat): nat
    requires participants >= 2
  {
    Residue(speaker + (1 + Residue(offset, participants - 1)), participants)
  }

  predicate Interested(c: Config, frame: nat, speaker: nat, listener: nat)
    requires c.participants >= 2
  {
    if speaker == listener then false
    else if c.scenario == Baseline then speaker < c.talkers
    else if c.profile == GroupMerge then
      var size := c.listeners + 1;
      if StressActive(c, frame) then speaker / size / 2 == listener / size / 2 else speaker / size == listener / size
    else
      AnyRank(speaker, Rotation(c, frame, speaker), c.listeners, c.participants, listener)
  }

  /** Whether some rank below `n` points the speaker at the listener. */
  predicate AnyRank(speaker: nat, rotation: nat, n: nat, participants: nat, listener: nat)
    requires participants >= 2
  {
    n > 0 && (AnyRank(speaker, rotation, n - 1, participants, listener)
              || ListenerAt(speaker, rotation + n - 1, participants) == listener)
  }

  ghost function Audience(c: Config, frame: nat, speaker: nat): set<nat>
    requires c.participants >= 2
  {
    set listener: nat | listener < c.participants && Interested(c, frame, speaker, listener)
  }

  /** The participant `o + 1` places after the speaker. */
  function Place(speaker: nat, participants: nat): nat -> nat
    requires participants > 0
  {
    o => Residue(speaker + (1 + o), participants)
  }

  lemma PlaceInjective(speaker: nat, participants: nat, x: nat, y: nat)
    requires participants >= 2 && speaker < participants
    requires x < participants - 1 && y < participants - 1
    ensures Place(speaker, participants)(x) == Place(speaker, participants)(y) ==> x == y
    ensures Place(speaker, participants)(x) != speaker && Place(speaker, participants)(x) < participants
  {
    ResidueSmall(speaker, participants);
    hide Residue;
    ResiduesDiffer(speaker, speaker + (1 + x), participants);
    if x < y {
      ResiduesDiffer(speaker + (1 + x), speaker + (1 + y), participants);
    } else if y < x {
      ResiduesDiffer(speaker + (1 + y), speaker + (1 + x), participants);
    }
  }

  lemma {:induction false} AnyRankIsBlock(speaker: nat, rotation: nat, n: nat, participants: nat, listener: nat)
    requires participants >= 2
    ensures AnyRank(speaker, rotation, n, participants, listener)
            <==> exists o :: o in Block(rotation, n, participants - 1) && Place(speaker, participants)(o) == listener
  {
    hide Residue;
    if n > 0 {
      AnyRankIsBlock(speaker, rotation, n - 1, participants, listener);
      var o := Residue(rotation + n - 1, participants - 1);
      assert o in Block(rotation, n, participants - 1);
      assert Place(speaker, participants)(o) == ListenerAt(speaker, rotation + n - 1, participants);
    }
  }

  /** The audience of the windowed profiles is the image of a block of offsets. */
  lemma AudienceIsBlock(c: Config, frame: nat, speaker: nat)
    requires ValidGame(c) && c.profile != GroupMerge && speaker < c.participants
    ensures Audience(c, frame, speaker)
            == Image(speaker, c.participants, Block(Rotation(c, frame, speaker), c.listeners, c.participants - 1))
  {
    hide Rotation, AnyRank, Block, Residue, StressActive;
    var r, n, p := Rotation(c, frame, speaker), c.listeners, c.participants;
    BlockSize(r, n, p - 1);
    forall listener: nat
      ensures listener in Audience(c, frame, speaker) <==> listener in Image(speaker, p, Block(r, n, p - 1))
    {
      AnyRankIsBlock(speaker, r, n, p, listener);
      forall o | o in Block(r, n, p - 1) ensures Place(speaker, p)(o) != speaker && Place(speaker, p)(o) < p {
        PlaceInjective(speaker, p, o, o);
      }
    }
  }

  ghost function Image(speaker: nat, participants: nat, offsets: set<nat>): set<nat>
    requires participants > 0
  {
    set o | o in offsets :: Place(speaker, participants)(o)
  }

  /** Rotating, crowd-burst and boundary profiles: every speaker has exactly the configured number of distinct
      listeners, at every frame, and is never one of them. */
  lemma ExactFanOut(c: Config, frame: nat, speaker: nat)
    requires ValidGame(c) && c.profile != GroupMerge && speaker < c.participants
    ensures |Audience(c, frame, speaker)| == c.listeners
    ensures speaker !in Audience(c, frame, speaker)
  {
    hide Rotation, Residue, Block, Interested, Audience, Image, StressActive;
    NotOwnListener(c, frame, speaker);
    AudienceIsBlock(c, frame, speaker);
    WindowSize(speaker, Rotation(c, frame, speaker), c.listeners, c.participants);
  }

  lemma WindowSize(speaker: nat, rotation: nat, n: nat, participants: nat)
    requires participants >= 2 && speaker < participants && n < participants
    ensures |Image(speaker, participants, Block(rotation, n, participants - 1))| == n
  {
    hide Residue, Block, Place;
    var block := Block(rotation, n, participants - 1);
    BlockSize(rotation, n, participants - 1);
    forall x, y | x in block && y in block && Place(speaker, participants)(x) == Place(speaker, participants)(y)
      ensures x == y
    {
      PlaceInjective(speaker, participants, x, y);
    }
    ImageSize(block, Place(speaker, participants));
  }

  lemma NotOwnListener(c: Config, frame: nat, speaker: nat)
    requires c.participants >= 2
    ensures speaker !in Audience(c, frame, speaker)
  {
    hide Rotation, StressActive;
  }

  /** The two listener sets between which boundary-oscillation alternates are disjoint if and only if the guard of the
      command line holds. */
  lemma BoundarySetsDisjoint(c: Config, first: nat, second: nat, speaker: nat)
    requires ValidGame(c) && c.profile == BoundaryOscillation && speaker < c.participants
    requires StressActive(c, first) && StressActive(c, second)
    requires Alternate(first) == 0 && Alternate(second) == 1
    ensures Audience(c, first, speaker) !! Audience(c, second, speaker) <==> 2 * c.listeners <= c.participants - 1
  {
    hide Residue, Base, Audience, Hash, StressActive, Alternate;
    ResidueSmall(Base(c, speaker), c.participants - 1);
    assert Rotation(c, first, speaker) == Residue(Base(c, speaker), c.participants - 1);
    assert Rotation(c, second, speaker) == Residue(Base(c, speaker) + c.listeners, c.participants - 1);
    ShiftedDisjoint(c, first, second, speaker);
  }

  /** Listener sets that start `listeners` places apart. */
  lemma ShiftedDisjoint(c: Config, first: nat, second: nat, speaker: nat)
    requires ValidGame(c) && c.profile == BoundaryOscillation && speaker < c.participants
    requires Rotation(c, first, speaker) == Residue(Base(c, speaker), c.participants - 1)
    requires Rotation(c, second, speaker) == Residue(Base(c, speaker) + c.listeners, c.participants - 1)
    ensures Audience(c, first, speaker) !! Audience(c, second, speaker) <==> 2 * c.listeners <= c.participants - 1
  {
    hide Residue, Block, Interested, Audience, Base, Rotation, Image;
    var base, n, m, p := Base(c, speaker), c.listeners, c.participants - 1, c.participants;
    AudienceIsBlock(c, first, speaker);
    AudienceIsBlock(c, second, speaker);
    BlockOfResidue(base, n, m);
    BlockOfResidue(base + n, n, m);
    BlocksDisjoint(base, n, m);
    ImagesDisjoint(speaker, p, Block(base, n, m), Block(base + n, n, m));
  }

  /** Boundary-oscillation by the clock: the listeners are those of a calm frame, but in frames 5 to 9 of every 10 within
      the stress window, when they are a set disjoint from those if and only if the guard of the command line holds. */
  lemma OscillationByClock(c: Config, calm: nat, frame: nat, speaker: nat)
    requires ValidGame(c) && c.profile == BoundaryOscillation && speaker < c.participants
    requires !(200 <= calm % 600 < 400)
    ensures if 200 <= frame % 600 < 400 && frame % 10 >= 5
            then Audience(c, calm, speaker) !! Audience(c, frame, speaker) <==> 2 * c.listeners <= c.participants - 1
            else Audience(c, calm, speaker) == Audience(c, frame, speaker)
  {
    hide Audience, Rotation, Base, Residue;
    RotationByClock(c, calm, speaker);
    RotationByClock(c, frame, speaker);
    if 200 <= frame % 600 < 400 && frame % 10 >= 5 {
      ShiftedDisjoint(c, calm, frame, speaker);
    } else {
      SameRotation(c, calm, frame, speaker);
    }
  }

  /** When a stressed frame uses the second listener set. */
  predicate Away(frame: nat) { 200 <= frame % 600 < 400 && frame % 10 >= 5 }

  lemma RotationByClock(c: Config, frame: nat, speaker: nat)
    requires ValidGame(c) && c.profile == BoundaryOscillation
    ensures Rotation(c, frame, speaker)
            == Residue(Base(c, speaker) + (if Away(frame) then c.listeners else 0), c.participants - 1)
  {
    hide Alternate, Residue, Hash, Base, StressActive, Away;
    AlternateByClock(c, frame);
    ResidueSmall(Base(c, speaker), c.participants - 1);
  }

  lemma AlternateByClock(c: Config, frame: nat)
    requires ValidGame(c) && c.profile == BoundaryOscillation
    ensures Away(frame) <==> StressActive(c, frame) && Alternate(frame) == 1
  {
    LastDigit(frame);
    if StressActive(c, frame) {
      HalfOfTen(frame % 600);
    }
  }

  lemma LastDigit(frame: nat)
    ensures frame % 10 == frame % 600 % 10
  {
    var cycle, phase := frame / 600, frame % 600;
    Unique(frame, 60 * cycle + phase / 10, phase % 10, 10);
  }

  lemma HalfOfTen(phase: nat)
    requires 200 <= phase
    ensures (phase - 200) / 5 % 2 == 1 <==> phase % 10 >= 5
  {
    var tens, digit := phase / 10 - 20, phase % 10;
    var x := phase - 200;
    assert x == 10 * tens + digit;
    assert x / 5 == 2 * tens + digit / 5;
  }

  lemma SameRotation(c: Config, a: nat, b: nat, speaker: nat)
    requires ValidGame(c) && c.profile != GroupMerge && Rotation(c, a, speaker) == Rotation(c, b, speaker)
    ensures Audience(c, a, speaker) == Audience(c, b, speaker)
  {
    hide Interested, Rotation;
    forall listener: nat ensures Interested(c, a, speaker, listener) == Interested(c, b, speaker, listener) {
      SteadyInterest(c, a, b, speaker, listener);
    }
  }

  lemma ImagesDisjoint(speaker: nat, participants: nat, a: set<nat>, b: set<nat>)
    requires participants >= 2 && speaker < participants
    requires a <= Range(participants - 1) && b <= Range(participants - 1)
    ensures Image(speaker, participants, a) !! Image(speaker, participants, b) <==> a !! b
  {
    hide Residue, Place;
    var imageA, imageB := Image(speaker, participants, a), Image(speaker, participants, b);
    if !(a !! b) {
      var x :| x in a && x in b;
      assert Place(speaker, participants)(x) in imageA && Place(speaker, participants)(x) in imageB;
    }
    if !(imageA !! imageB) {
      var z :| z in imageA && z in imageB;
      var x :| x in a && Place(speaker, participants)(x) == z;
      var y :| y in b && Place(speaker, participants)(y) == z;
      PlaceInjective(speaker, participants, x, y);
    }
  }

  lemma BlocksDisjoint(base: nat, n: nat, m: nat)
    requires 0 < n <= m
    ensures Block(base, n, m) !! Block(base + n, n, m) <==> 2 * n <= m
    ensures Block(base, n, m) <= Range(m) && Block(base + n, n, m) <= Range(m)
  {
    hide Residue, Block;
    BlockSize(base, n, m);
    BlockSize(base + n, n, m);
    if 2 * n > m {
      ResidueTurns(base, m);
      BlockHas(base, n, m, 0);
      BlockHas(base + n, n, m, m - n);
      assert Residue(base, m) in Block(base, n, m) && Residue(base, m) in Block(base + n, n, m);
    } else if !(Block(base, n, m) !! Block(base + n, n, m)) {
      var x :| x in Block(base, n, m) && x in Block(base + n, n, m);
      var i := BlockIndex(base, n, m, x);
      var j := BlockIndex(base + n, n, m, x);
      ResiduesDiffer(base + i, base + n + j, m);
      assert false;
    }
  }

  /** Group-merge: being in one group is symmetric, transitive between distinct participants, and merging two groups
      only adds listeners. */
  lemma GroupsAreEquivalences(c: Config, frame: nat, calm: nat, a: nat, b: nat, d: nat)
    requires ValidGame(c) && c.profile == GroupMerge && !StressActive(c, calm)
    ensures Interested(c, frame, a, b) <==> Interested(c, frame, b, a)
    ensures Interested(c, frame, a, b) && Interested(c, frame, b, d) && a != d ==> Interested(c, frame, a, d)
    ensures Interested(c, calm, a, b) ==> Interested(c, frame, a, b)
  {
  }

  /** In the baseline scenario everyone hears the first `talkers` participants, and nobody else. */
  lemma BaselineAudience(c: Config, frame: nat, speaker: nat)
    requires c.scenario == Baseline && c.participants >= 2 && speaker < c.participants
    ensures speaker < c.talkers ==> forall l: nat :: l in Audience(c, frame, speaker) <==> l < c.participants && l != speaker
    ensures speaker >= c.talkers ==> Audience(c, frame, speaker) == {}
  {
  }

  /** Group-merge: a group is a run of `listeners + 1` participants, or of twice as many during the stress window. */
  lemma GroupsAreRuns(c: Config, frame: nat, a: nat, b: nat)
    requires ValidGame(c) && c.profile == GroupMerge && a != b
    ensures var stressed := 200 <= frame % 600 < 400;
            var size := if stressed then 2 * (c.listeners + 1) else c.listeners + 1;
            Interested(c, frame, a, b) <==> a / size == b / size
  {
    HalvedTwice(a, c.listeners + 1);
    HalvedTwice(b, c.listeners + 1);
  }

  lemma HalvedTwice(x: nat, size: nat)
    requires size > 0
    ensures x / size / 2 == x / (2 * size)
  {
    var h := x / size / 2;
    Halves(x, size, h);
    Halves(x, size, h + 1);
  }

  lemma Halves(x: nat, size: nat, k: nat)
    requires size > 0
    ensures x / size < 2 * k <==> x / (2 * size) < k
  {
    DivBelow(x, size, 2 * k);
    DivBelow(x, 2 * size, k);
    assert (2 * k) * size == k * (2 * size);
  }

  /** The place, counted from the first one after the speaker, that a rank points at. */
  function Turned(rotation: nat, rank: nat, places: nat): nat
    requires places > 0
  {
    (rotation + rank) % places
  }

  /** Whether one of the first `n` ranks points at the place. */
  predicate InWindow(rotation: nat, n: nat, places: nat, place: nat)
    requires places > 0
  {
    exists rank :: 0 <= rank < n && Turned(rotation, rank, places) == place
  }

  /** The listeners of the other profiles stand next to each other, the speaker left out: the listener `k` places after the
      speaker is one of them if and only if one of the first `listeners` ranks, turned by the rotation, points at it. */
  lemma ListenersAreWindow(c: Config, frame: nat, speaker: nat, k: nat)
    requires ValidGame(c) && c.profile != GroupMerge && speaker < c.participants && 0 < k < c.participants
    ensures Interested(c, frame, speaker, (speaker + k) % c.participants) <==>
            InWindow(Rotation(c, frame, speaker), c.listeners, c.participants - 1, k - 1)
  {
    hide Rotation, AnyRank, Block, Interested, Audience, StressActive, Residue, Place, InWindow, Image, Range;
    var p, n, r := c.participants, c.listeners, Rotation(c, frame, speaker);
    PlaceIs(speaker, p, k);
    InAudience(c, frame, speaker, Place(speaker, p)(k - 1));
    AudienceIsBlock(c, frame, speaker);
    BlockSize(r, n, p - 1);
    InImage(speaker, p, Block(r, n, p - 1), k - 1);
    InBlock(r, n, p - 1, k - 1);
  }

  lemma PlaceIs(speaker: nat, participants: nat, k: nat)
    requires participants >= 2 && 0 < k < participants
    ensures Place(speaker, participants)(k - 1) == (speaker + k) % participants < participants
  {
    var o: nat := k - 1;
    assert Place(speaker, participants)(o) == Residue(speaker + (1 + o), participants);
    assert speaker + (1 + o) == speaker + k;
  }

  lemma InBlock(rotation: nat, n: nat, m: nat, x: nat)
    requires m > 0
    ensures x in Block(rotation, n, m) <==> InWindow(rotation, n, m, x)
  {
    forall rank: nat ensures Turned(rotation, rank, m) == Residue(rotation + rank, m) {}
    hide Block, Residue, Turned;
    if x in Block(rotation, n, m) {
      var rank := BlockIndex(rotation, n, m, x);
      assert Turned(rotation, rank, m) == x;
    }
    forall rank | 0 <= rank < n && Turned(rotation, rank, m) == x ensures x in Block(rotation, n, m) {
      BlockHas(rotation, n, m, rank);
    }
  }

  lemma InAudience(c: Config, frame: nat, speaker: nat, listener: nat)
    requires c.participants >= 2 && listener < c.participants
    ensures listener in Audience(c, frame, speaker) <==> Interested(c, frame, speaker, listener)
  {
  }

  lemma InImage(speaker: nat, participants: nat, offsets: set<nat>, x: nat)
    requires participants >= 2 && speaker < participants && x < participants - 1 && offsets <= Range(participants - 1)
    ensures Place(speaker, participants)(x) in Image(speaker, participants, offsets) <==> x in offsets
  {
    hide Place, Residue;
    if Place(speaker, participants)(x) in Image(speaker, participants, offsets) {
      var y :| y in offsets && Place(speaker, participants)(y) == Place(speaker, participants)(x);
      PlaceInjective(speaker, participants, x, y);
    }
  }

  /** When the listeners change: at most every 150 frames, and not at all outside the stress window of boundary-oscillation. */
  lemma AudienceIsSteady(c: Config, a: nat, b: nat, speaker: nat)
    requires ValidGame(c) && speaker < c.participants
    requires match c.profile
             case BoundaryOscillation => !(200 <= a % 600 < 400) && !(200 <= b % 600 < 400)
             case GroupMerge => (200 <= a % 600 < 400) == (200 <= b % 600 < 400)
             case _ => a / 150 == b / 150
    ensures Audience(c, a, speaker) == Audience(c, b, speaker)
  {
    hide Interested, StressActive, Rotation;
    if c.profile != GroupMerge {
      SteadyRotation(c, a, b, speaker);
    }
    forall listener: nat ensures Interested(c, a, speaker, listener) == Interested(c, b, speaker, listener) {
      SteadyInterest(c, a, b, speaker, listener);
    }
  }

  lemma SteadyInterest(c: Config, a: nat, b: nat, speaker: nat, listener: nat)
    requires ValidGame(c)
    requires if c.profile == GroupMerge then (200 <= a % 600 < 400) == (200 <= b % 600 < 400)
             else Rotation(c, a, speaker) == Rotation(c, b, speaker)
    ensures Interested(c, a, speaker, listener) == Interested(c, b, speaker, listener)
  {
    hide Rotation, AnyRank;
  }

  lemma SteadyRotation(c: Config, a: nat, b: nat, speaker: nat)
    requires ValidGame(c) && c.profile != GroupMerge
    requires if c.profile == BoundaryOscillation then !(200 <= a % 600 < 400) && !(200 <= b % 600 < 400) else a / 150 == b / 150
    ensures Rotation(c, a, speaker) == Rotation(c, b, speaker)
  {
    hide Hash, Residue;
  }

  /** Whether one of the first `n` conversation slots starting at `first` belongs to the speaker. */
  predicate AnySlot(first: nat, n: nat, participants: nat, speaker: nat)
    requires participants > 0
  {
    n > 0 && (AnySlot(first, n - 1, participants, speaker) || Residue(first + n - 1, participants) == speaker)
  }

  function FirstSlot(c: Config, turn: nat): nat { c.seed + turn * c.talkers }

  predicate CurrentTalks(c: Config, frame: nat) {
    (frame / GAME_TURN_FRAMES + c.seed) % 3 == 0 ==> frame % GAME_TURN_FRAMES < GAME_TALK_FRAMES
  }

  predicate NextOverlaps(c: Config, frame: nat) {
    (frame / GAME_TURN_FRAMES + c.seed) % 3 == 1 && frame % GAME_TURN_FRAMES >= GAME_TURN_FRAMES - GAME_OVERLAP_FRAMES
  }

  predicate InCrowdBurst(c: Config, frame: nat) { c.profile == CrowdBurst && StressActive(c, frame) }

  predicate TalkerActive(c: Config, frame: nat, speaker: nat)
    requires c.participants > 0
  {
    InCrowdBurst(c, frame) ||
    var turn := frame / GAME_TURN_FRAMES;
    || (CurrentTalks(c, frame) && AnySlot(FirstSlot(c, turn), c.talkers, c.participants, speaker))
    || (NextOverlaps(c, frame) && AnySlot(FirstSlot(c, turn + 1), c.talkers, c.participants, speaker))
  }

  lemma {:induction false} AnySlotIsBlock(first: nat, n: nat, participants: nat, speaker: nat)
    requires participants > 0
    ensures AnySlot(first, n, participants, speaker) <==> speaker in Block(first, n, participants)
  {
    hide Residue;
    if n > 0 {
      AnySlotIsBlock(first, n - 1, participants, speaker);
    }
  }

  ghost function ActiveTalkers(c: Config, frame: nat): set<nat>
    requires c.participants > 0
  {
    set speaker: nat | speaker < c.participants && TalkerActive(c, frame, speaker)
  }

  /** How many talk, exactly: everyone in a crowd burst; while the next turn overlaps, two sets of talkers (or everyone,
      if there are fewer); otherwise one set, or nobody in the pause at the end of a turn. So never more than
      2 * talkers outside a crowd burst. */
  lemma ExactLoad(c: Config, frame: nat)
    requires ValidGame(c)
    ensures |ActiveTalkers(c, frame)| ==
            if InCrowdBurst(c, frame) then c.participants
            else if NextOverlaps(c, frame) then Min(2 * c.talkers, c.participants)
            else if CurrentTalks(c, frame) then c.talkers else 0
  {
    hide StressActive, Residue, Block, CurrentTalks, NextOverlaps, InCrowdBurst, FirstSlot, ActiveTalkers, Range;
    var n, p, first := c.talkers, c.participants, FirstSlot(c, frame / GAME_TURN_FRAMES);
    TalkersAreBlocks(c, frame);
    BlockSize(first, n, p);
    BlockConcat(first, n, n, p);
    BlockSize(first, n + n, p);
    if NextOverlaps(c, frame) {
      OverlapTalks(c, frame);
    }
  }

  /** The same by the clock of a turn of 75 frames: every third turn pauses in its last 15 frames, and in the last 5 frames
      of the next one those of the turn after it talk as well. A crowd burst is frames 250 to 299 of every 600. */
  lemma LoadByPhase(c: Config, frame: nat)
    requires ValidGame(c)
    ensures var turn, phase := (frame / 75 + c.seed) % 3, frame % 75;
            var burst := c.profile == CrowdBurst && 250 <= frame % 600 < 300;
            |ActiveTalkers(c, frame)| ==
            if burst then c.participants
            else if turn == 0 && phase >= 60 then 0
            else if turn == 1 && phase >= 70 then Min(2 * c.talkers, c.participants)
            else c.talkers
  {
    ExactLoad(c, frame);
    hide ActiveTalkers;
  }

  lemma TalkersAreBlocks(c: Config, frame: nat)
    requires ValidGame(c)
    ensures var first := FirstSlot(c, frame / GAME_TURN_FRAMES);
            ActiveTalkers(c, frame) ==
            if InCrowdBurst(c, frame) then Range(c.participants)
            else (if CurrentTalks(c, frame) then Block(first, c.talkers, c.participants) else {})
                 + (if NextOverlaps(c, frame) then Block(first + c.talkers, c.talkers, c.participants) else {})
  {
    hide StressActive, Residue, Block, CurrentTalks, NextOverlaps, InCrowdBurst, TalkerActive, FirstSlot, Range;
    var first := FirstSlot(c, frame / GAME_TURN_FRAMES);
    BlockSize(first, c.talkers, c.participants);
    BlockSize(first + c.talkers, c.talkers, c.participants);
    forall speaker: nat
      ensures TalkerActive(c, frame, speaker) <==>
              || InCrowdBurst(c, frame)
              || (CurrentTalks(c, frame) && speaker in Block(first, c.talkers, c.participants))
              || (NextOverlaps(c, frame) && speaker in Block(first + c.talkers, c.talkers, c.participants))
    {
      ActiveInBlocks(c, frame, speaker);
    }
  }

  lemma ActiveInBlocks(c: Config, frame: nat, speaker: nat)
    requires c.participants > 0
    ensures var first := FirstSlot(c, frame / GAME_TURN_FRAMES);
            TalkerActive(c, frame, speaker) <==>
            || InCrowdBurst(c, frame)
            || (CurrentTalks(c, frame) && speaker in Block(first, c.talkers, c.participants))
            || (NextOverlaps(c, frame) && speaker in Block(first + c.talkers, c.talkers, c.participants))
  {
    NextSlot(c, frame / GAME_TURN_FRAMES);
    hide AnySlot, Block, FirstSlot, CurrentTalks, NextOverlaps, InCrowdBurst;
    AnySlotIsBlock(FirstSlot(c, frame / GAME_TURN_FRAMES), c.talkers, c.participants, speaker);
    AnySlotIsBlock(FirstSlot(c, frame / GAME_TURN_FRAMES) + c.talkers, c.talkers, c.participants, speaker);
  }

  lemma NextSlot(c: Config, turn: nat)
    ensures FirstSlot(c, turn + 1) == FirstSlot(c, turn) + c.talkers
  {
  }

  lemma OverlapTalks(c: Config, frame: nat)
    requires NextOverlaps(c, frame)
    ensures CurrentTalks(c, frame)
  {
  }

  function TurnsToCover(c: Config): nat
    requires c.talkers > 0
  {
    CeilDiv(c.participants, c.talkers)
  }

  /** Fairness: whatever the seed, in any run of ceil(participants / talkers) turns every participant gets a turn, and
      talks through its whole talking part. */
  lemma EveryoneGetsATurn(c: Config, firstTurn: nat, speaker: nat) returns (turn: nat)
    requires ValidGame(c) && speaker < c.participants
    ensures firstTurn <= turn < firstTurn + TurnsToCover(c)
    ensures forall frame: nat :: frame / GAME_TURN_FRAMES == turn && frame % GAME_TURN_FRAMES < GAME_TALK_FRAMES
                                 ==> TalkerActive(c, frame, speaker)
  {
    hide AnySlot, FirstSlot, TalkerActive, TurnsToCover;
    turn := TurnOf(c, firstTurn, speaker);
    forall frame: nat | frame / GAME_TURN_FRAMES == turn && frame % GAME_TURN_FRAMES < GAME_TALK_FRAMES
      ensures TalkerActive(c, frame, speaker)
    {
      TalksInTurn(c, frame, speaker);
    }
  }

  lemma TurnOf(c: Config, firstTurn: nat, speaker: nat) returns (turn: nat)
    requires ValidGame(c) && speaker < c.participants
    ensures firstTurn <= turn < firstTurn + TurnsToCover(c)
    ensures AnySlot(FirstSlot(c, turn), c.talkers, c.participants, speaker)
  {
    hide AnySlot, FirstSlot, Residue, Block, TurnsToCover, Range;
    var n, p, k := c.talkers, c.participants, TurnsToCover(c);
    CoversAll(c);
    var first := FirstSlot(c, firstTurn);
    BlockSize(first, k * n, p);
    SubsetFull(Block(first, k * n, p), Range(p));
    var i := BlockIndex(first, k * n, p, speaker);
    var t, slot := SlotOf(c, firstTurn, i, k);
    turn := firstTurn + t;
    BlockHas(FirstSlot(c, turn), n, p, slot);
    AnySlotIsBlock(FirstSlot(c, turn), n, p, speaker);
  }

  lemma TalksInTurn(c: Config, frame: nat, speaker: nat)
    requires c.participants > 0 && frame % GAME_TURN_FRAMES < GAME_TALK_FRAMES
    requires AnySlot(FirstSlot(c, frame / GAME_TURN_FRAMES), c.talkers, c.participants, speaker)
    ensures TalkerActive(c, frame, speaker)
  {
    hide AnySlot, FirstSlot, StressActive;
  }

  lemma CoversAll(c: Config)
    requires c.talkers > 0
    ensures TurnsToCover(c) * c.talkers >= c.participants
  {
    var x, n := c.participants + c.talkers - 1, c.talkers;
    assert x == (x / n) * n + x % n;
  }

  lemma SlotOf(c: Config, firstTurn: nat, i: nat, k: nat) returns (t: nat, slot: nat)
    requires c.talkers > 0 && i < k * c.talkers
    ensures FirstSlot(c, firstTurn) + i == FirstSlot(c, firstTurn + t) + slot
    ensures t < k && slot < c.talkers
  {
    var n := c.talkers;
    t, slot := i / n, i % n;
    assert i == t * n + slot;
    assert (firstTurn + t) * n == firstTurn * n + t * n;
    NoMultipleBetween(k - t, n);
    assert (k - t) * n == k * n - t * n;
  }
}
