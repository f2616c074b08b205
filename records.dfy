/** The task records built from stored data (galaxy.ts, sector.ts,
    system.ts, planet.ts, moon.ts): each creator copies its data's fields,
    inflates its children in data order with itself as their parent, and
    links them in through an adder that also moves the counters of the
    galaxy above it. */
module Records {
  import opened Common
  import opened Vec2DModel
  import opened Fragments
  import opened Territory
  import opened Backups

  // ---------------------------------------------------------------------
  // Stored data

  /** A comment; its time is kept as the stored string. */
  datatype Comment = Comment(time: string, content: string)

  /** The fields every record copies from its data. The labels are a value,
      so the record's list is a copy of the data's. */
  datatype Info = Info(id: string, name: string, description: string, checked: bool,
                       priority: int, order: int, closed: bool, encrypted: bool,
                       content: string, labels: seq<string>)

  datatype MoonData = MoonData(info: Info, comments: seq<Comment>, difficulty: int)
  datatype PlanetData = PlanetData(info: Info, comments: seq<Comment>, difficulty: int,
                                   children: seq<MoonData>)
  datatype SystemData = SystemData(info: Info, comments: seq<Comment>, coords: Option<Coord>,
                                   children: seq<PlanetData>)
  /** A colour of `None` stands for a missing (falsy) colour. */
  datatype SectorData = SectorData(info: Info, comments: seq<Comment>, color: Option<TaskColor>,
                                   pattern: int, emblem: string, children: seq<SystemData>)
  datatype GalaxyData = GalaxyData(info: Info, comments: seq<Comment>, color: TaskColor,
                                   theme: GalaxyTheme, discoverable: bool, category: GalaxyCategory,
                                   date: string, children: seq<SectorData>)

  datatype GalaxyTheme = BTL
  /** `PROJECT` is the category of a new galaxy; the others are known by name only. */
  datatype GalaxyCategory = PROJECT | Category(name: string)

  // ---------------------------------------------------------------------
  // Counters

  /** One pair of galaxy counters: the tasks of a kind, and the checked ones. */
  datatype Tally = Tally(total: int, done: int)

  const NoTasks := Tally(0, 0)

  /** What one task adds to the counters of its kind. */
  function One(checked: bool): Tally
  {
    Tally(1, if checked then 1 else 0)
  }

  /** What `f` counts in each of `xs`, added up in order. */
  function Sum<T>(xs: seq<T>, f: T -> Tally): Tally
  {
    if xs == [] then NoTasks
    else
      var t, x := Sum(xs[..|xs| - 1], f), f(xs[|xs| - 1]);
      Tally(t.total + x.total, t.done + x.done)
  }

  /** Adding up one more element. */
  lemma {:induction false} SumStep<T>(xs: seq<T>, f: T -> Tally, i: nat)
    requires i < |xs|
    ensures Sum(xs[..i + 1], f).total == Sum(xs[..i], f).total + f(xs[i]).total
    ensures Sum(xs[..i + 1], f).done == Sum(xs[..i], f).done + f(xs[i]).done
  {
    var x := xs[i];
    assert xs[..i + 1] == xs[..i] + [x];
    assert (xs[..i] + [x])[..i] == xs[..i];
  }

  // The tasks stored in the data, kind by kind, with the checked ones: a
  // task counts once at its own level and never at another.

  function MoonOf(m: MoonData): Tally { One(m.info.checked) }

  function PlanetOf(p: PlanetData): Tally { One(p.info.checked) }
  function MoonsOfPlanet(p: PlanetData): Tally { Sum(p.children, MoonOf) }

  function SystemOf(y: SystemData): Tally { One(y.info.checked) }
  function PlanetsOfSystem(y: SystemData): Tally { Sum(y.children, PlanetOf) }
  function MoonsOfSystem(y: SystemData): Tally { Sum(y.children, MoonsOfPlanet) }

  function SectorOf(s: SectorData): Tally { One(s.info.checked) }
  function SystemsOfSector(s: SectorData): Tally { Sum(s.children, SystemOf) }
  function PlanetsOfSector(s: SectorData): Tally { Sum(s.children, PlanetsOfSystem) }
  function MoonsOfSector(s: SectorData): Tally { Sum(s.children, MoonsOfSystem) }

  // ---------------------------------------------------------------------
  // Records

  /** A moon. The fields these operations never change are constants. */
  class MoonRec {
    const info: Info
    const comments: seq<Comment>
    const difficulty: int
    var parent: PlanetRec?

    constructor (data: MoonData, comments: seq<Comment>)
      ensures info == data.info && this.comments == comments && difficulty == data.difficulty
      ensures parent == null
    {
      info, this.comments, difficulty := data.info, comments, data.difficulty;
      parent := null;
    }
  }

  class PlanetRec {
    const info: Info
    const comments: seq<Comment>
    const difficulty: int
    var parent: SystemRec?
    var children: seq<MoonRec>

    constructor (data: PlanetData, comments: seq<Comment>, parent: SystemRec?)
      ensures info == data.info && this.comments == comments && difficulty == data.difficulty
      ensures this.parent == parent && children == []
    {
      info, this.comments, difficulty := data.info, comments, data.difficulty;
      this.parent, children := parent, [];
    }
  }

  class SystemRec {
    const info: Info
    const comments: seq<Comment>
    const coords: Vec2D?
    const strength: real
    var parent: SectorRec?
    var children: seq<PlanetRec>

    constructor (data: SystemData, comments: seq<Comment>, coords: Vec2D?, parent: SectorRec?)
      ensures info == data.info && this.comments == comments && this.coords == coords && strength == 0.0
      ensures this.parent == parent && children == []
    {
      info, this.comments, this.coords, strength := data.info, comments, coords, 0.0;
      this.parent, children := parent, [];
    }
  }

  class SectorRec {
    const info: Info
    const comments: seq<Comment>
    const color: TaskColor
    const pattern: int
    const emblem: string
    const space: SectorSpace
    var parent: GalaxyRec?
    var children: seq<SystemRec>

    constructor (data: SectorData, comments: seq<Comment>, parent: GalaxyRec?)
      ensures info == data.info && this.comments == comments
      ensures color == (if data.color.Some? then data.color.value else VIOLET)
      ensures pattern == data.pattern && emblem == data.emblem
      ensures fresh(space) && space.Valid() && space.shapes == [] && space.userShapes == [] && space.borders == []
      ensures space.points.contents == Empty && space.userPoints.contents == Empty
      ensures space.borderPoints.contents == Empty
      ensures this.parent == parent && children == []
    {
      info, this.comments, pattern, emblem := data.info, comments, data.pattern, data.emblem;
      color := if data.color.Some? then data.color.value else VIOLET;
      space := new SectorSpace();
      this.parent, children := parent, [];
    }
  }

  /** An entry of the galaxy's label filter. */
  datatype Label = Label(text: string, active: bool)

  /** The filter entry every galaxy starts with. */
  const HideChecked := Label("Hide checked", false)

  /** The filter entries of a galaxy whose data carries `labels`: the
      'Hide checked' entry, then one inactive entry per label, in order,
      repeats included. */
  function LabelSetOf(labels: seq<string>): (r: seq<Label>)
    ensures |r| == |labels| + 1 && r[0] == HideChecked
    ensures forall j :: 0 <= j < |labels| ==> r[j + 1] == Label(labels[j], false)
  {
    if labels == [] then [HideChecked]
    else LabelSetOf(labels[..|labels| - 1]) + [Label(labels[|labels| - 1], false)]
  }

  /** Where a galaxy is saved and how its copy compares. The first four
      statuses are those of the `SaveStatus` enum (task-enums.ts:64-69).
      `NEED_TO_SAVE` is an assumed fifth value, distinct from the others,
      standing for the member createNewGalaxy assigns (galaxy.ts:79), which
      that enum does not declare. */
  datatype SaveLocation = LOCAL | SERVER
  datatype SaveStatus = NO_COPY | AHEAD | SAME | BEHIND | NEED_TO_SAVE

  class GalaxyRec {
    const info: Info
    const comments: seq<Comment>
    const color: TaskColor
    const theme: GalaxyTheme
    const discoverable: bool
    const category: GalaxyCategory
    const date: string
    var lastModificationDate: string
    var saveLocation: SaveLocation
    var saveStatus: SaveStatus
    var children: seq<SectorRec>
    var nbrSectors: int
    var nbrSectorsCompleted: int
    var nbrSystems: int
    var nbrSystemsCompleted: int
    var nbrPlanets: int
    var nbrPlanetsCompleted: int
    var nbrMoons: int
    var nbrMoonsCompleted: int
    var labelSet: seq<Label>
    var bkps: seq<BackupStep>
    var bkpsForward: seq<BackupStep>

    /** The record literal of `createGalaxy`: every counter at 0 and the
        label filter holding only its 'Hide checked' entry. */
    constructor (data: GalaxyData, comments: seq<Comment>)
      ensures info == data.info && this.comments == comments && color == data.color
      ensures theme == data.theme && discoverable == data.discoverable && category == data.category
      ensures date == data.date && lastModificationDate == data.date
      ensures saveLocation == LOCAL && saveStatus == NO_COPY
      ensures children == [] && SectorCount() == NoTasks && SystemCount() == NoTasks
      ensures PlanetCount() == NoTasks && MoonCount() == NoTasks
      ensures labelSet == [HideChecked] && bkps == [] && bkpsForward == []
    {
      info, this.comments, color, theme := data.info, comments, data.color, data.theme;
      discoverable, category, date := data.discoverable, data.category, data.date;
      lastModificationDate, saveLocation, saveStatus := data.date, LOCAL, NO_COPY;
      children := [];
      nbrSectors, nbrSectorsCompleted, nbrSystems, nbrSystemsCompleted := 0, 0, 0, 0;
      nbrPlanets, nbrPlanetsCompleted, nbrMoons, nbrMoonsCompleted := 0, 0, 0, 0;
      labelSet, bkps, bkpsForward := [HideChecked], [], [];
    }

    /** The sector counters, and the checked ones among them. */
    function SectorCount(): Tally
      reads this`nbrSectors, this`nbrSectorsCompleted
    {
      Tally(nbrSectors, nbrSectorsCompleted)
    }

    function SystemCount(): Tally
      reads this`nbrSystems, this`nbrSystemsCompleted
    {
      Tally(nbrSystems, nbrSystemsCompleted)
    }

    function PlanetCount(): Tally
      reads this`nbrPlanets, this`nbrPlanetsCompleted
    {
      Tally(nbrPlanets, nbrPlanetsCompleted)
    }

    function MoonCount(): Tally
      reads this`nbrMoons, this`nbrMoonsCompleted
    {
      Tally(nbrMoons, nbrMoonsCompleted)
    }

    /** The sector counters are `before` with `added` counted in. */
    predicate SectorsGrew(before: Tally, added: Tally)
      reads this`nbrSectors, this`nbrSectorsCompleted
    {
      nbrSectors == before.total + added.total && nbrSectorsCompleted == before.done + added.done
    }

    predicate SystemsGrew(before: Tally, added: Tally)
      reads this`nbrSystems, this`nbrSystemsCompleted
    {
      nbrSystems == before.total + added.total && nbrSystemsCompleted == before.done + added.done
    }

    predicate PlanetsGrew(before: Tally, added: Tally)
      reads this`nbrPlanets, this`nbrPlanetsCompleted
    {
      nbrPlanets == before.total + added.total && nbrPlanetsCompleted == before.done + added.done
    }

    predicate MoonsGrew(before: Tally, added: Tally)
      reads this`nbrMoons, this`nbrMoonsCompleted
    {
      nbrMoons == before.total + added.total && nbrMoonsCompleted == before.done + added.done
    }
  }

  // ---------------------------------------------------------------------
  // The galaxy above a record, if any

  /** `{g}` when `g` is a galaxy, `{}` for none. */
  function Galaxies(g: GalaxyRec?): set<GalaxyRec>
  {
    if g == null then {} else {g}
  }

  function Sectors(s: SectorRec?): set<SectorRec>
  {
    if s == null then {} else {s}
  }

  function Systems(s: SystemRec?): set<SystemRec>
  {
    if s == null then {} else {s}
  }

  /** `sector.parent`. */
  function SectorGalaxy(s: SectorRec?): set<GalaxyRec>
    reads Sectors(s)`parent
  {
    if s == null then {} else Galaxies(s.parent)
  }

  /** `system.parent?.parent`. */
  function SystemGalaxy(s: SystemRec?): set<GalaxyRec>
    reads Systems(s)`parent, (if s == null then {} else Sectors(s.parent))`parent
  {
    if s == null then {} else SectorGalaxy(s.parent)
  }

  /** `planet.parent?.parent?.parent`. */
  function PlanetGalaxy(p: PlanetRec): set<GalaxyRec>
    reads p`parent, Systems(p.parent)`parent,
          (if p.parent == null then {} else Sectors(p.parent.parent))`parent
  {
    SystemGalaxy(p.parent)
  }

  // ---------------------------------------------------------------------
  // What a list of records adds to the counters of its kind

  function MoonsTally(ms: seq<MoonRec>): Tally
  {
    if ms == [] then NoTasks
    else
      var t := MoonsTally(ms[..|ms| - 1]);
      Tally(t.total + 1, if ms[|ms| - 1].info.checked then t.done + 1 else t.done)
  }

  function PlanetsTally(ps: seq<PlanetRec>): Tally
  {
    if ps == [] then NoTasks
    else
      var t := PlanetsTally(ps[..|ps| - 1]);
      Tally(t.total + 1, if ps[|ps| - 1].info.checked then t.done + 1 else t.done)
  }

  function SystemsTally(ss: seq<SystemRec>): Tally
  {
    if ss == [] then NoTasks
    else
      var t := SystemsTally(ss[..|ss| - 1]);
      Tally(t.total + 1, if ss[|ss| - 1].info.checked then t.done + 1 else t.done)
  }

  function SectorsTally(ss: seq<SectorRec>): Tally
  {
    if ss == [] then NoTasks
    else
      var t := SectorsTally(ss[..|ss| - 1]);
      Tally(t.total + 1, if ss[|ss| - 1].info.checked then t.done + 1 else t.done)
  }

  /** Records copied from data count as the data does. */
  lemma {:induction false} MoonsCounted(ms: seq<MoonRec>, ds: seq<MoonData>)
    requires |ms| == |ds| && forall j :: 0 <= j < |ms| ==> ms[j].info == ds[j].info
    ensures MoonsTally(ms) == Sum(ds, MoonOf)
  {
    if ms != [] {
      MoonsCounted(ms[..|ms| - 1], ds[..|ds| - 1]);
    }
  }

  lemma {:induction false} PlanetsCounted(ps: seq<PlanetRec>, ds: seq<PlanetData>)
    requires |ps| == |ds| && forall j :: 0 <= j < |ps| ==> ps[j].info == ds[j].info
    ensures PlanetsTally(ps) == Sum(ds, PlanetOf)
  {
    if ps != [] {
      PlanetsCounted(ps[..|ps| - 1], ds[..|ds| - 1]);
    }
  }

  lemma {:induction false} SystemsCounted(ss: seq<SystemRec>, ds: seq<SystemData>)
    requires |ss| == |ds| && forall j :: 0 <= j < |ss| ==> ss[j].info == ds[j].info
    ensures SystemsTally(ss) == Sum(ds, SystemOf)
  {
    if ss != [] {
      SystemsCounted(ss[..|ss| - 1], ds[..|ds| - 1]);
    }
  }

  lemma {:induction false} SectorsCounted(ss: seq<SectorRec>, ds: seq<SectorData>)
    requires |ss| == |ds| && forall j :: 0 <= j < |ss| ==> ss[j].info == ds[j].info
    ensures SectorsTally(ss) == Sum(ds, SectorOf)
  {
    if ss != [] {
      SectorsCounted(ss[..|ss| - 1], ds[..|ds| - 1]);
    }
  }

  // ---------------------------------------------------------------------
  // Adders

  /** `addChildToPlanet(planet, moon)`. */
  method AddChildToPlanet(p: PlanetRec, m: MoonRec)
    modifies p`children, m`parent, PlanetGalaxy(p)`nbrMoons, PlanetGalaxy(p)`nbrMoonsCompleted
    ensures p.children == old(p.children) + [m] && m.parent == p
    ensures forall g :: g in PlanetGalaxy(p) ==> g.MoonsGrew(old(g.MoonCount()), One(m.info.checked))
  {
    p.children := p.children + [m];
    m.parent := p;
    var galaxy := if p.parent == null || p.parent.parent == null then null else p.parent.parent.parent;
    if galaxy != null {
      galaxy.nbrMoons := galaxy.nbrMoons + 1;
      if m.info.checked {
        galaxy.nbrMoonsCompleted := galaxy.nbrMoonsCompleted + 1;
      }
    }
  }

  /** `addChildrenToPlanet(planet, moons)`: `addChildToPlanet` in list order. */
  method AddChildrenToPlanet(p: PlanetRec, ms: seq<MoonRec>)
    modifies p`children, ms`parent, PlanetGalaxy(p)`nbrMoons, PlanetGalaxy(p)`nbrMoonsCompleted
    ensures p.children == old(p.children) + ms
    ensures forall j :: 0 <= j < |ms| ==> ms[j].parent == p
    ensures forall g :: g in PlanetGalaxy(p) ==> g.MoonsGrew(old(g.MoonCount()), MoonsTally(ms))
  {
    for i := 0 to |ms|
      invariant p.children == old(p.children) + ms[..i]
      invariant forall j :: 0 <= j < i ==> ms[j].parent == p
      invariant forall g :: g in PlanetGalaxy(p) ==> g.MoonsGrew(old(g.MoonCount()), MoonsTally(ms[..i]))
    {
      AddChildToPlanet(p, ms[i]);
      assert ms[..i + 1][..i] == ms[..i];
    }
    assert ms[..|ms|] == ms;
  }

  /** `addChildToSystem(system, planet)`. */
  method AddChildToSystem(s: SystemRec, p: PlanetRec)
    modifies s`children, p`parent, SystemGalaxy(s)`nbrPlanets, SystemGalaxy(s)`nbrPlanetsCompleted
    ensures s.children == old(s.children) + [p] && p.parent == s
    ensures forall g :: g in SystemGalaxy(s) ==> g.PlanetsGrew(old(g.PlanetCount()), One(p.info.checked))
  {
    s.children := s.children + [p];
    p.parent := s;
    var galaxy := if s.parent == null then null else s.parent.parent;
    if galaxy != null {
      galaxy.nbrPlanets := galaxy.nbrPlanets + 1;
      if p.info.checked {
        galaxy.nbrPlanetsCompleted := galaxy.nbrPlanetsCompleted + 1;
      }
    }
  }

  /** `addChildrenToSystem(system, planets)`. */
  method AddChildrenToSystem(s: SystemRec, ps: seq<PlanetRec>)
    modifies s`children, ps`parent, SystemGalaxy(s)`nbrPlanets, SystemGalaxy(s)`nbrPlanetsCompleted
    ensures s.children == old(s.children) + ps
    ensures forall j :: 0 <= j < |ps| ==> ps[j].parent == s
    ensures forall g :: g in SystemGalaxy(s) ==> g.PlanetsGrew(old(g.PlanetCount()), PlanetsTally(ps))
  {
    for i := 0 to |ps|
      invariant s.children == old(s.children) + ps[..i]
      invariant forall j :: 0 <= j < i ==> ps[j].parent == s
      invariant forall g :: g in SystemGalaxy(s) ==> g.PlanetsGrew(old(g.PlanetCount()), PlanetsTally(ps[..i]))
    {
      AddChildToSystem(s, ps[i]);
      assert ps[..i + 1][..i] == ps[..i];
    }
    assert ps[..|ps|] == ps;
  }

  /** `addChildToSector(sector, system)`. */
  method AddChildToSector(s: SectorRec, y: SystemRec)
    modifies s`children, y`parent, SectorGalaxy(s)`nbrSystems, SectorGalaxy(s)`nbrSystemsCompleted
    ensures s.children == old(s.children) + [y] && y.parent == s
    ensures forall g :: g in SectorGalaxy(s) ==> g.SystemsGrew(old(g.SystemCount()), One(y.info.checked))
  {
    s.children := s.children + [y];
    y.parent := s;
    var galaxy := s.parent;
    if galaxy != null {
      galaxy.nbrSystems := galaxy.nbrSystems + 1;
      if y.info.checked {
        galaxy.nbrSystemsCompleted := galaxy.nbrSystemsCompleted + 1;
      }
    }
  }

  /** `addChildrenToSector(sector, systems)`: the loop body is
      `addChildToSector`'s, written out. */
  method AddChildrenToSector(s: SectorRec, ys: seq<SystemRec>)
    modifies s`children, ys`parent, SectorGalaxy(s)`nbrSystems, SectorGalaxy(s)`nbrSystemsCompleted
    ensures s.children == old(s.children) + ys
    ensures forall j :: 0 <= j < |ys| ==> ys[j].parent == s
    ensures forall g :: g in SectorGalaxy(s) ==> g.SystemsGrew(old(g.SystemCount()), SystemsTally(ys))
  {
    var galaxy := s.parent;
    for i := 0 to |ys|
      invariant s.children == old(s.children) + ys[..i]
      invariant forall j :: 0 <= j < i ==> ys[j].parent == s
      invariant galaxy != null ==> galaxy.SystemsGrew(old(galaxy.SystemCount()), SystemsTally(ys[..i]))
    {
      s.children := s.children + [ys[i]];
      ys[i].parent := s;
      if galaxy != null {
        galaxy.nbrSystems := galaxy.nbrSystems + 1;
        if ys[i].info.checked {
          galaxy.nbrSystemsCompleted := galaxy.nbrSystemsCompleted + 1;
        }
      }
      assert ys[..i + 1][..i] == ys[..i];
      assert SystemsTally(ys[..i + 1]) == Tally(SystemsTally(ys[..i]).total + 1, SystemsTally(ys[..i]).done + One(ys[i].info.checked).done);
    }
    assert ys[..|ys|] == ys;
  }

  /** `addChildToGalaxy(galaxy, sector)`. */
  method AddChildToGalaxy(g: GalaxyRec, s: SectorRec)
    modifies g`children, s`parent, g`nbrSectors, g`nbrSectorsCompleted
    ensures g.children == old(g.children) + [s] && s.parent == g
    ensures g.SectorsGrew(old(g.SectorCount()), One(s.info.checked))
  {
    g.children := g.children + [s];
    s.parent := g;
    g.nbrSectors := g.nbrSectors + 1;
    if s.info.checked {
      g.nbrSectorsCompleted := g.nbrSectorsCompleted + 1;
    }
  }

  /** `addChildrenToGalaxy(galaxy, sectors)`. */
  method AddChildrenToGalaxy(g: GalaxyRec, ss: seq<SectorRec>)
    modifies g`children, ss`parent, g`nbrSectors, g`nbrSectorsCompleted
    ensures g.children == old(g.children) + ss
    ensures forall j :: 0 <= j < |ss| ==> ss[j].parent == g
    ensures g.SectorsGrew(old(g.SectorCount()), SectorsTally(ss))
  {
    for i := 0 to |ss|
      invariant g.children == old(g.children) + ss[..i]
      invariant forall j :: 0 <= j < i ==> ss[j].parent == g
      invariant g.SectorsGrew(old(g.SectorCount()), SectorsTally(ss[..i]))
    {
      AddChildToGalaxy(g, ss[i]);
      assert ss[..i + 1][..i] == ss[..i];
    }
    assert ss[..|ss|] == ss;
  }

  // ---------------------------------------------------------------------
  // Creators

  /** The comments pushed one by one onto a new record. */
  method CopyComments(cs: seq<Comment>) returns (r: seq<Comment>)
    ensures r == cs
  {
    r := [];
    for i := 0 to |cs|
      invariant r == cs[..i]
    {
      r := r + [Comment(cs[i].time, cs[i].content)];
    }
  }

  /** `createMoon(data, parent)`: the parent argument is not stored. */
  method CreateMoon(data: MoonData, parent: PlanetRec?) returns (m: MoonRec)
    ensures fresh(m) && m.info == data.info && m.difficulty == data.difficulty
    ensures m.comments == data.comments && m.parent == null
  {
    var cs := CopyComments(data.comments);
    m := new MoonRec(data, cs);
  }

  /** `createPlanet(data, parent)`: the moons are inflated in data order and
      added, which counts them in the galaxy above `parent`. */
  method CreatePlanet(data: PlanetData, parent: SystemRec?) returns (p: PlanetRec)
    modifies SystemGalaxy(parent)`nbrMoons, SystemGalaxy(parent)`nbrMoonsCompleted
    ensures fresh(p) && p.info == data.info && p.difficulty == data.difficulty
    ensures p.comments == data.comments && p.parent == parent
    ensures |p.children| == |data.children|
    ensures forall j :: 0 <= j < |p.children| ==>
              && fresh(p.children[j]) && p.children[j].parent == p
              && p.children[j].info == data.children[j].info
              && p.children[j].difficulty == data.children[j].difficulty
    ensures forall g :: g in SystemGalaxy(parent) ==> g.MoonsGrew(old(g.MoonCount()), MoonsOfPlanet(data))
  {
    var cs := CopyComments(data.comments);
    p := new PlanetRec(data, cs, parent);
    assert PlanetGalaxy(p) == SystemGalaxy(parent);
    assert forall g :: g in SystemGalaxy(parent) ==> g.MoonCount() == old(g.MoonCount());
    InflateMoons(p, data);
  }

  /** The moons of `createPlanet`, inflated in data order and added to the
      new planet `p`. */
  method InflateMoons(p: PlanetRec, data: PlanetData)
    requires p.children == []
    modifies p`children, PlanetGalaxy(p)`nbrMoons, PlanetGalaxy(p)`nbrMoonsCompleted
    ensures |p.children| == |data.children|
    ensures forall j :: 0 <= j < |p.children| ==>
              && fresh(p.children[j]) && p.children[j].parent == p
              && p.children[j].info == data.children[j].info
              && p.children[j].difficulty == data.children[j].difficulty
    ensures forall g :: g in PlanetGalaxy(p) ==> g.MoonsGrew(old(g.MoonCount()), MoonsOfPlanet(data))
  {
    ghost var gs := PlanetGalaxy(p);
    var children := CreateMoons(data.children, p);
    MoonsCounted(children, data.children);
    assert PlanetGalaxy(p) == gs;
    assert forall g :: g in gs ==> g.MoonCount() == old(g.MoonCount());
    AttachMoons(p, children, data);
    assert PlanetGalaxy(p) == gs;
    assert p.children == children;
  }

  /** The `addChildrenToPlanet` call of `createPlanet`: what it counts is
      what the data holds. */
  method AttachMoons(p: PlanetRec, ms: seq<MoonRec>, data: PlanetData)
    requires MoonsTally(ms) == MoonsOfPlanet(data)
    modifies p`children, ms`parent, PlanetGalaxy(p)`nbrMoons, PlanetGalaxy(p)`nbrMoonsCompleted
    ensures p.children == old(p.children) + ms
    ensures forall j :: 0 <= j < |ms| ==> ms[j].parent == p
    ensures forall g :: g in PlanetGalaxy(p) ==> g.MoonsGrew(old(g.MoonCount()), MoonsOfPlanet(data))
  {
    AddChildrenToPlanet(p, ms);
  }

  /** The inflating loop of `createPlanet`: one new moon per data entry, in
      order. */
  method CreateMoons(ds: seq<MoonData>, p: PlanetRec) returns (ms: seq<MoonRec>)
    ensures |ms| == |ds|
    ensures forall j :: 0 <= j < |ms| ==>
              fresh(ms[j]) && ms[j].info == ds[j].info && ms[j].difficulty == ds[j].difficulty
  {
    ms := [];
    for i := 0 to |ds|
      invariant |ms| == i
      invariant forall j :: 0 <= j < i ==>
                  fresh(ms[j]) && ms[j].info == ds[j].info && ms[j].difficulty == ds[j].difficulty
    {
      var m := CreateMoon(ds[i], p);
      ms := ms + [m];
    }
  }

  /** `createSystem(data, parent)`: the coordinates are copied into a new
      vector, the strength starts at 0, and the planets are inflated in data
      order and added; the galaxy above `parent` counts their planets and
      moons. */
  method CreateSystem(data: SystemData, parent: SectorRec?) returns (y: SystemRec)
    modifies SectorGalaxy(parent)`nbrPlanets, SectorGalaxy(parent)`nbrPlanetsCompleted,
             SectorGalaxy(parent)`nbrMoons, SectorGalaxy(parent)`nbrMoonsCompleted
    ensures fresh(y) && y.info == data.info && y.comments == data.comments && y.parent == parent
    ensures y.strength == 0.0
    ensures if data.coords.None? then y.coords == null
            else y.coords != null && fresh(y.coords) && y.coords.Valid()
                 && y.coords.X() == data.coords.value.x && y.coords.Y() == data.coords.value.y
    ensures |y.children| == |data.children|
    ensures forall j :: 0 <= j < |y.children| ==>
              fresh(y.children[j]) && y.children[j].parent == y && y.children[j].info == data.children[j].info
    ensures forall g :: g in SectorGalaxy(parent) ==>
              && g.PlanetsGrew(old(g.PlanetCount()), PlanetsOfSystem(data))
              && g.MoonsGrew(old(g.MoonCount()), MoonsOfSystem(data))
  {
    y := NewSystem(data, parent);
    assert SystemGalaxy(y) == SectorGalaxy(parent);
    assert forall g :: g in SectorGalaxy(parent) ==>
             g.PlanetCount() == old(g.PlanetCount()) && g.MoonCount() == old(g.MoonCount());
    InflatePlanets(y, data);
  }

  /** The planets of `createSystem`, inflated in data order and added to
      the new system `y`. */
  method InflatePlanets(y: SystemRec, data: SystemData)
    requires y.children == []
    modifies y`children, SystemGalaxy(y)`nbrPlanets, SystemGalaxy(y)`nbrPlanetsCompleted,
             SystemGalaxy(y)`nbrMoons, SystemGalaxy(y)`nbrMoonsCompleted
    ensures |y.children| == |data.children|
    ensures forall j :: 0 <= j < |y.children| ==>
              fresh(y.children[j]) && y.children[j].parent == y && y.children[j].info == data.children[j].info
    ensures forall g :: g in SystemGalaxy(y) ==>
              && g.PlanetsGrew(old(g.PlanetCount()), PlanetsOfSystem(data))
              && g.MoonsGrew(old(g.MoonCount()), MoonsOfSystem(data))
  {
    var children := CreatePlanets(data.children, y);
    PlanetsCounted(children, data.children);
    assert forall g :: g in SystemGalaxy(y) ==> g.PlanetCount() == old(g.PlanetCount());
    AttachPlanets(y, children, data);
    assert y.children == children;
  }

  /** The record of `createSystem` before its planets are inflated. */
  method NewSystem(data: SystemData, parent: SectorRec?) returns (y: SystemRec)
    ensures fresh(y) && y.info == data.info && y.comments == data.comments && y.parent == parent
    ensures y.strength == 0.0 && y.children == []
    ensures if data.coords.None? then y.coords == null
            else y.coords != null && fresh(y.coords) && fresh(y.coords.slots) && y.coords.Valid()
                 && y.coords.X() == data.coords.value.x && y.coords.Y() == data.coords.value.y
  {
    var coords: Vec2D? := null;
    if data.coords.Some? {
      coords := new Vec2D(data.coords.value.x, data.coords.value.y);
    }
    var cs := CopyComments(data.comments);
    y := new SystemRec(data, cs, coords, parent);
  }

  /** The `addChildrenToSystem` call of `createSystem`: what it counts is
      what the data holds. */
  method AttachPlanets(y: SystemRec, ps: seq<PlanetRec>, data: SystemData)
    requires PlanetsTally(ps) == PlanetsOfSystem(data)
    modifies y`children, ps`parent, SystemGalaxy(y)`nbrPlanets, SystemGalaxy(y)`nbrPlanetsCompleted
    ensures y.children == old(y.children) + ps
    ensures forall j :: 0 <= j < |ps| ==> ps[j].parent == y
    ensures forall g :: g in SystemGalaxy(y) ==> g.PlanetsGrew(old(g.PlanetCount()), PlanetsOfSystem(data))
  {
    AddChildrenToSystem(y, ps);
  }

  /** The inflating loop of `createSystem`: one new planet per data entry,
      in order, each with `y` as its parent. */
  method CreatePlanets(ds: seq<PlanetData>, y: SystemRec) returns (ps: seq<PlanetRec>)
    modifies SystemGalaxy(y)`nbrMoons, SystemGalaxy(y)`nbrMoonsCompleted
    ensures |ps| == |ds|
    ensures forall j :: 0 <= j < |ps| ==> fresh(ps[j]) && ps[j].info == ds[j].info && ps[j].parent == y
    ensures forall g :: g in SystemGalaxy(y) ==> g.MoonsGrew(old(g.MoonCount()), Sum(ds, MoonsOfPlanet))
  {
    var sector := y.parent;
    var galaxy := if sector == null then null else sector.parent;
    ps := [];
    for i := 0 to |ds|
      invariant |ps| == i && y.parent == sector && (sector != null ==> sector.parent == galaxy)
      invariant forall j :: 0 <= j < i ==> fresh(ps[j]) && ps[j].info == ds[j].info && ps[j].parent == y
      invariant galaxy != null ==> galaxy.MoonsGrew(old(galaxy.MoonCount()), Sum(ds[..i], MoonsOfPlanet))
    {
      SumStep(ds, MoonsOfPlanet, i);
      var p := CreatePlanet(ds[i], y);
      if galaxy != null {
        assert galaxy in SystemGalaxy(y);
      }
      ps := ps + [p];
    }
    assert ds[..|ds|] == ds;
  }

  /** `createSector(data, parent)`: the colour falls back to VIOLET, the
      shape lists and edge maps start empty, and the systems are inflated in
      data order and added; the galaxy `parent` counts their systems,
      planets and moons. */
  method CreateSector(data: SectorData, parent: GalaxyRec?) returns (s: SectorRec)
    modifies Galaxies(parent)`nbrSystems, Galaxies(parent)`nbrSystemsCompleted,
             Galaxies(parent)`nbrPlanets, Galaxies(parent)`nbrPlanetsCompleted,
             Galaxies(parent)`nbrMoons, Galaxies(parent)`nbrMoonsCompleted
    ensures fresh(s) && s.info == data.info && s.comments == data.comments && s.parent == parent
    ensures s.color == (if data.color.Some? then data.color.value else VIOLET)
    ensures s.pattern == data.pattern && s.emblem == data.emblem
    ensures fresh(s.space) && s.space.Valid() && s.space.shapes == [] && s.space.userShapes == []
    ensures s.space.borders == [] && s.space.points.contents == Empty
    ensures s.space.userPoints.contents == Empty && s.space.borderPoints.contents == Empty
    ensures |s.children| == |data.children|
    ensures forall j :: 0 <= j < |s.children| ==>
              fresh(s.children[j]) && s.children[j].parent == s && s.children[j].info == data.children[j].info
    ensures forall g :: g in Galaxies(parent) ==>
              && g.SystemsGrew(old(g.SystemCount()), SystemsOfSector(data))
              && g.PlanetsGrew(old(g.PlanetCount()), PlanetsOfSector(data))
              && g.MoonsGrew(old(g.MoonCount()), MoonsOfSector(data))
  {
    var cs := CopyComments(data.comments);
    s := new SectorRec(data, cs, parent);
    assert SectorGalaxy(s) == Galaxies(parent);
    assert forall g :: g in Galaxies(parent) ==>
             && g.SystemCount() == old(g.SystemCount())
             && g.PlanetCount() == old(g.PlanetCount()) && g.MoonCount() == old(g.MoonCount());
    InflateSystems(s, data);
  }

  /** The systems of `createSector`, inflated in data order and added to
      the new sector `s`. */
  method InflateSystems(s: SectorRec, data: SectorData)
    requires s.children == []
    modifies s`children, SectorGalaxy(s)`nbrSystems, SectorGalaxy(s)`nbrSystemsCompleted,
             SectorGalaxy(s)`nbrPlanets, SectorGalaxy(s)`nbrPlanetsCompleted,
             SectorGalaxy(s)`nbrMoons, SectorGalaxy(s)`nbrMoonsCompleted
    ensures |s.children| == |data.children|
    ensures forall j :: 0 <= j < |s.children| ==>
              fresh(s.children[j]) && s.children[j].parent == s && s.children[j].info == data.children[j].info
    ensures forall g :: g in SectorGalaxy(s) ==>
              && g.SystemsGrew(old(g.SystemCount()), SystemsOfSector(data))
              && g.PlanetsGrew(old(g.PlanetCount()), PlanetsOfSector(data))
              && g.MoonsGrew(old(g.MoonCount()), MoonsOfSector(data))
  {
    var children := CreateSystems(data.children, s);
    SystemsCounted(children, data.children);
    assert forall g :: g in SectorGalaxy(s) ==> g.SystemCount() == old(g.SystemCount());
    AttachSystems(s, children, data);
    assert s.children == children;
  }

  /** The `addChildrenToSector` call of `createSector`: what it counts is
      what the data holds. */
  method AttachSystems(s: SectorRec, ys: seq<SystemRec>, data: SectorData)
    requires SystemsTally(ys) == SystemsOfSector(data)
    modifies s`children, ys`parent, SectorGalaxy(s)`nbrSystems, SectorGalaxy(s)`nbrSystemsCompleted
    ensures s.children == old(s.children) + ys
    ensures forall j :: 0 <= j < |ys| ==> ys[j].parent == s
    ensures forall g :: g in SectorGalaxy(s) ==> g.SystemsGrew(old(g.SystemCount()), SystemsOfSector(data))
  {
    AddChildrenToSector(s, ys);
  }

  /** The inflating loop of `createSector`: one new system per data entry,
      in order, each with `s` as its parent. */
  method CreateSystems(ds: seq<SystemData>, s: SectorRec) returns (ys: seq<SystemRec>)
    modifies SectorGalaxy(s)`nbrPlanets, SectorGalaxy(s)`nbrPlanetsCompleted,
             SectorGalaxy(s)`nbrMoons, SectorGalaxy(s)`nbrMoonsCompleted
    ensures |ys| == |ds|
    ensures forall j :: 0 <= j < |ys| ==> fresh(ys[j]) && ys[j].info == ds[j].info && ys[j].parent == s
    ensures forall g :: g in SectorGalaxy(s) ==>
              && g.PlanetsGrew(old(g.PlanetCount()), Sum(ds, PlanetsOfSystem))
              && g.MoonsGrew(old(g.MoonCount()), Sum(ds, MoonsOfSystem))
  {
    var galaxy := s.parent;
    ghost var pla := if galaxy != null then galaxy.PlanetCount() else NoTasks;
    ghost var moo := if galaxy != null then galaxy.MoonCount() else NoTasks;
    ys := [];
    for i := 0 to |ds|
      invariant |ys| == i && s.parent == galaxy
      invariant forall j :: 0 <= j < i ==> fresh(ys[j]) && ys[j].info == ds[j].info && ys[j].parent == s
      invariant galaxy != null ==>
                  && galaxy.PlanetsGrew(pla, Sum(ds[..i], PlanetsOfSystem))
                  && galaxy.MoonsGrew(moo, Sum(ds[..i], MoonsOfSystem))
    {
      var y := SystemAt(ds, i, s, galaxy, pla, moo);
      ys := ys + [y];
    }
    assert ds[..|ds|] == ds;
  }

  /** The `i`-th turn of that loop: the galaxy above, if any, moves from the
      sums over the first `i` systems to the sums over the first `i + 1`. */
  method SystemAt(ds: seq<SystemData>, i: nat, s: SectorRec, galaxy: GalaxyRec?, ghost pla: Tally, ghost moo: Tally)
    returns (y: SystemRec)
    requires i < |ds| && s.parent == galaxy
    requires galaxy != null ==>
               && galaxy.PlanetsGrew(pla, Sum(ds[..i], PlanetsOfSystem))
               && galaxy.MoonsGrew(moo, Sum(ds[..i], MoonsOfSystem))
    modifies SectorGalaxy(s)`nbrPlanets, SectorGalaxy(s)`nbrPlanetsCompleted,
             SectorGalaxy(s)`nbrMoons, SectorGalaxy(s)`nbrMoonsCompleted
    ensures fresh(y) && y.info == ds[i].info && y.parent == s && s.parent == galaxy
    ensures galaxy != null ==>
              && galaxy.PlanetsGrew(pla, Sum(ds[..i + 1], PlanetsOfSystem))
              && galaxy.MoonsGrew(moo, Sum(ds[..i + 1], MoonsOfSystem))
  {
    SumStep(ds, PlanetsOfSystem, i);
    SumStep(ds, MoonsOfSystem, i);
    y := CreateSystem(ds[i], s);
    if galaxy != null {
      assert galaxy in SectorGalaxy(s);
    }
  }

  /** `createGalaxy(data)`: every counter starts at 0, the label filter is
      'Hide checked' and one inactive entry per label, and the sectors are
      inflated in data order and added; the counters then hold the census of
      the data. */
  method CreateGalaxy(data: GalaxyData) returns (g: GalaxyRec)
    ensures fresh(g) && g.info == data.info && g.comments == data.comments && g.color == data.color
    ensures g.theme == data.theme && g.discoverable == data.discoverable && g.category == data.category
    ensures g.date == data.date && g.lastModificationDate == data.date
    ensures g.saveLocation == LOCAL && g.saveStatus == NO_COPY && g.bkps == [] && g.bkpsForward == []
    ensures g.labelSet == LabelSetOf(data.info.labels)
    ensures |g.children| == |data.children|
    ensures forall j :: 0 <= j < |g.children| ==>
              fresh(g.children[j]) && g.children[j].parent == g && g.children[j].info == data.children[j].info
    ensures g.SectorCount() == Sum(data.children, SectorOf)
    ensures g.SystemCount() == Sum(data.children, SystemsOfSector)
    ensures g.PlanetCount() == Sum(data.children, PlanetsOfSector)
    ensures g.MoonCount() == Sum(data.children, MoonsOfSector)
  {
    var cs := CopyComments(data.comments);
    g := InflatedGalaxy(data, cs);
    AddLabels(g, data.info.labels);
  }

  /** A new galaxy record for `data`, with its sectors inflated and
      counted but its label set not yet built. */
  method InflatedGalaxy(data: GalaxyData, cs: seq<Comment>) returns (g: GalaxyRec)
    ensures fresh(g) && g.info == data.info && g.comments == cs && g.color == data.color
    ensures g.theme == data.theme && g.discoverable == data.discoverable && g.category == data.category
    ensures g.date == data.date && g.lastModificationDate == data.date
    ensures g.saveLocation == LOCAL && g.saveStatus == NO_COPY && g.bkps == [] && g.bkpsForward == []
    ensures g.labelSet == [HideChecked]
    ensures |g.children| == |data.children|
    ensures forall j :: 0 <= j < |g.children| ==>
              fresh(g.children[j]) && g.children[j].parent == g && g.children[j].info == data.children[j].info
    ensures g.SectorCount() == Sum(data.children, SectorOf)
    ensures g.SystemCount() == Sum(data.children, SystemsOfSector)
    ensures g.PlanetCount() == Sum(data.children, PlanetsOfSector)
    ensures g.MoonCount() == Sum(data.children, MoonsOfSector)
  {
    g := new GalaxyRec(data, cs);
    InflateSectors(g, data.children);
  }

  /** The sectors of `createGalaxy`: inflated with `g` as their parent,
      then added to `g`. */
  method InflateSectors(g: GalaxyRec, ds: seq<SectorData>)
    requires g.children == []
    modifies g`children, g`nbrSectors, g`nbrSectorsCompleted, g`nbrSystems, g`nbrSystemsCompleted,
             g`nbrPlanets, g`nbrPlanetsCompleted, g`nbrMoons, g`nbrMoonsCompleted
    ensures |g.children| == |ds|
    ensures forall j :: 0 <= j < |g.children| ==>
              fresh(g.children[j]) && g.children[j].parent == g && g.children[j].info == ds[j].info
    ensures g.SectorsGrew(old(g.SectorCount()), Sum(ds, SectorOf))
    ensures g.SystemsGrew(old(g.SystemCount()), Sum(ds, SystemsOfSector))
    ensures g.PlanetsGrew(old(g.PlanetCount()), Sum(ds, PlanetsOfSector))
    ensures g.MoonsGrew(old(g.MoonCount()), Sum(ds, MoonsOfSector))
  {
    var children := CreateSectors(ds, g);
    SectorsCounted(children, ds);
    AddChildrenToGalaxy(g, children);
    assert g.children == children;
  }

  /** The `labelSet.push` loop of `createGalaxy`. */
  method AddLabels(g: GalaxyRec, labels: seq<string>)
    requires g.labelSet == [HideChecked]
    modifies g`labelSet
    ensures g.labelSet == LabelSetOf(labels)
  {
    for i := 0 to |labels|
      invariant g.labelSet == LabelSetOf(labels[..i])
    {
      assert labels[..i + 1][..i] == labels[..i];
      g.labelSet := g.labelSet + [Label(labels[i], false)];
    }
    assert labels[..|labels|] == labels;
  }

  /** The inflating loop of `createGalaxy`: one new sector per data entry,
      in order, each with `g` as its parent; `g` counts their systems,
      planets and moons. */
  method CreateSectors(ds: seq<SectorData>, g: GalaxyRec) returns (ss: seq<SectorRec>)
    modifies g`nbrSystems, g`nbrSystemsCompleted, g`nbrPlanets, g`nbrPlanetsCompleted, g`nbrMoons,
             g`nbrMoonsCompleted
    ensures |ss| == |ds|
    ensures forall j :: 0 <= j < |ss| ==> fresh(ss[j]) && ss[j].info == ds[j].info && ss[j].parent == g
    ensures g.SystemsGrew(old(g.SystemCount()), Sum(ds, SystemsOfSector))
    ensures g.PlanetsGrew(old(g.PlanetCount()), Sum(ds, PlanetsOfSector))
    ensures g.MoonsGrew(old(g.MoonCount()), Sum(ds, MoonsOfSector))
  {
    ghost var sys, pla, moo := g.SystemCount(), g.PlanetCount(), g.MoonCount();
    ss := [];
    for i := 0 to |ds|
      invariant |ss| == i
      invariant forall j :: 0 <= j < i ==> fresh(ss[j]) && ss[j].info == ds[j].info && ss[j].parent == g
      invariant g.SystemsGrew(sys, Sum(ds[..i], SystemsOfSector))
      invariant g.PlanetsGrew(pla, Sum(ds[..i], PlanetsOfSector))
      invariant g.MoonsGrew(moo, Sum(ds[..i], MoonsOfSector))
    {
      var s := SectorAt(ds, i, g, sys, pla, moo);
      ss := ss + [s];
    }
    assert ds[..|ds|] == ds;
  }

  /** The `i`-th turn of that loop: the counters move from the sums over
      the first `i` sectors to the sums over the first `i + 1`. */
  method SectorAt(ds: seq<SectorData>, i: nat, g: GalaxyRec, ghost sys: Tally, ghost pla: Tally, ghost moo: Tally)
    returns (s: SectorRec)
    requires i < |ds|
    requires g.SystemsGrew(sys, Sum(ds[..i], SystemsOfSector))
    requires g.PlanetsGrew(pla, Sum(ds[..i], PlanetsOfSector))
    requires g.MoonsGrew(moo, Sum(ds[..i], MoonsOfSector))
    modifies g`nbrSystems, g`nbrSystemsCompleted, g`nbrPlanets, g`nbrPlanetsCompleted, g`nbrMoons,
             g`nbrMoonsCompleted
    ensures fresh(s) && s.info == ds[i].info && s.parent == g
    ensures g.SystemsGrew(sys, Sum(ds[..i + 1], SystemsOfSector))
    ensures g.PlanetsGrew(pla, Sum(ds[..i + 1], PlanetsOfSector))
    ensures g.MoonsGrew(moo, Sum(ds[..i + 1], MoonsOfSector))
  {
    SumStep(ds, SystemsOfSector, i);
    SumStep(ds, PlanetsOfSector, i);
    SumStep(ds, MoonsOfSector, i);
    s := NextSector(ds[i], g);
  }

  /** One turn of the loop of `createGalaxy`: the new sector and what it
      adds to the counters. */
  method NextSector(d: SectorData, g: GalaxyRec) returns (s: SectorRec)
    modifies g`nbrSystems, g`nbrSystemsCompleted, g`nbrPlanets, g`nbrPlanetsCompleted, g`nbrMoons,
             g`nbrMoonsCompleted
    ensures fresh(s) && s.info == d.info && s.parent == g
    ensures g.SystemsGrew(old(g.SystemCount()), SystemsOfSector(d))
    ensures g.PlanetsGrew(old(g.PlanetCount()), PlanetsOfSector(d))
    ensures g.MoonsGrew(old(g.MoonCount()), MoonsOfSector(d))
  {
    s := CreateSector(d, g);
    assert g in Galaxies(g);
  }

  /** `createNewGalaxy(name)`: a galaxy made from data with no children, no
      labels and no comments, unchecked, open, VIOLET, priority 1, then
      given the assumed status `NEED_TO_SAVE`. The generated id and the current date are
      parameters. */
  method CreateNewGalaxy(name: string, id: string, now: string) returns (g: GalaxyRec)
    ensures fresh(g) && g.info.name == name && g.info.id == id && g.date == now
    ensures g.info == Info(id, name, "", false, 1, 0, false, false, "", [])
    ensures g.color == VIOLET && g.theme == BTL && !g.discoverable && g.category == PROJECT
    ensures g.children == [] && g.labelSet == [HideChecked]
    ensures g.SectorCount() == NoTasks && g.SystemCount() == NoTasks && g.PlanetCount() == NoTasks && g.MoonCount() == NoTasks
    ensures g.saveLocation == LOCAL && g.saveStatus == NEED_TO_SAVE && g.bkps == [] && g.bkpsForward == []
  {
    var data := GalaxyData(Info(id, name, "", false, 1, 0, false, false, "", []), [], VIOLET, BTL,
                           false, PROJECT, now, []);
    g := CreateGalaxy(data);
    g.saveStatus := NEED_TO_SAVE;
  }
}
