/** What a draft's launch says: its sides and operation are those of the last start,
    its match the last one named, its error why it failed. */
module PartyDraftEffects {
  import opened Common
  import opened PartyDraft
  import PS = PartyStore

  // ---- Acceptance -------------------------------------------------------------------------

  /** Sides are formed for a lobby that is forming teams: the premade ones when they
      part its players, else the ones its profiles give. */
  lemma FormsWhen(lobby: PS.Lobby, automatic: Option<Sides>, fixed: Option<Sides>)
    ensures FormTeams(lobby, automatic, fixed).Ok? <==> lobby.state == PS.Forming && if fixed.Some? then FixedTeamsFit(lobby, fixed.value) else automatic.Some?
    ensures FormTeams(lobby, automatic, fixed).Ok? ==> Some(FormTeams(lobby, automatic, fixed).value) == if fixed.Some? then fixed else automatic
  {
    hide FixedTeamsFit;
  }

  /** A start is answered when sides can be formed and the interaction belongs to no
      other lobby, unless the lobby's own standing launch is what is found first; the
      draft is started exactly when no launch stands. */
  lemma BeginsWhen(store: Store, c: Command)
    requires c.Begin?
    ensures var id, standing := c.lobby.lobbyId, c.lobby.lobbyId in store && store[c.lobby.lobbyId].status != Failed;
            && (Exec(store, c).Ok? <==>
                  && FormTeams(c.lobby, c.automatic, c.fixed).Ok?
                  && ((exists other :: other in store && other != id && store[other].op == c.op) ==> c.ownFirst && standing))
            && (Exec(store, c).Ok? ==> Exec(store, c).value.1.shouldStart == !standing)
  {
    hide FormTeams;
  }

  // ---- One launch -------------------------------------------------------------------------

  /** The command starts a draft for this lobby. */
  predicate StartsOne(store: Store, c: Command, id: string) {
    c.Begin? && c.lobby.lobbyId == id && Exec(store, c).Ok? && Exec(store, c).value.1.shouldStart
  }

  /** The command fails the pending launch of this lobby. */
  predicate FailsOne(store: Store, c: Command, id: string) { c.MarkFailed? && c.lobbyId == id && id in store && store[id].status == Pending }

  predicate Activates(store: Store, c: Command, id: string) { c.MarkActive? && c.lobbyId == id && id in store }

  /** The command names the launch's match. */
  predicate NamesMatch(store: Store, c: Command, id: string) { StartsOne(store, c, id) || (Activates(store, c, id) && c.given.Some?) }

  /** The command decides how the launch stands. */
  predicate Decides(store: Store, c: Command, id: string) { StartsOne(store, c, id) || FailsOne(store, c, id) || Activates(store, c, id) }

  /** The parts that a start decides. */
  predicate AsStarted(launch: Launch, c: Command) {
    && c.Begin? && launch.op == c.op && launch.channelId == c.channelId
    && FormTeams(c.lobby, c.automatic, c.fixed) == Ok(launch.sides)
  }

  predicate AsNamed(launch: Launch, c: Command) {
    (c.Begin? && launch.matchId == c.matchId) || (c.MarkActive? && c.given == Some(launch.matchId))
  }

  /** A start leaves it pending, a failure failed with the first 500 characters of
      its reason; else no reason is kept. */
  predicate AsDecided(launch: Launch, c: Command) {
    match c
    case Begin(_, _, _, _, _, _, _) => launch.status == Pending && launch.error == ""
    case MarkActive(_, _) => launch.status == Active && launch.error == ""
    case MarkFailed(_, error) => launch.status == Failed && launch.error <= error && |launch.error| == Min(|error|, 500)
  }

  lemma CommandLaunch(store: Store, c: Command, id: string)
    requires id in After(store, c)
    ensures var launch := After(store, c)[id];
            && (id in store || StartsOne(store, c, id))
            && (if StartsOne(store, c, id) then AsStarted(launch, c) && (id !in store ==> launch.guildId == c.lobby.guildId)
                else launch.op == store[id].op && launch.channelId == store[id].channelId && launch.sides == store[id].sides)
            && (if NamesMatch(store, c, id) then AsNamed(launch, c) else launch.matchId == store[id].matchId)
            && (if Decides(store, c, id) then AsDecided(launch, c) else launch.status == store[id].status && launch.error == store[id].error)
            && (id in store ==> launch.guildId == store[id].guildId)
  {
    hide FormTeams, OpElsewhere;
  }

  // ---- Every run --------------------------------------------------------------------------

  datatype Kind = Sided | Match | Standing

  predicate Sets(store: Store, c: Command, id: string, kind: Kind) {
    match kind
    case Sided => StartsOne(store, c, id)
    case Match => NamesMatch(store, c, id)
    case Standing => Decides(store, c, id)
  }

  predicate As(launch: Launch, c: Command, kind: Kind) {
    match kind
    case Sided => AsStarted(launch, c)
    case Match => AsNamed(launch, c)
    case Standing => AsDecided(launch, c)
  }

  predicate SameKind(a: Launch, b: Launch, kind: Kind) {
    match kind
    case Sided => a.op == b.op && a.channelId == b.channelId && a.sides == b.sides
    case Match => a.matchId == b.matchId
    case Standing => a.status == b.status && a.error == b.error
  }

  lemma CommandSets(store: Store, c: Command, id: string, kind: Kind)
    requires id in After(store, c)
    ensures if Sets(store, c, id, kind) then As(After(store, c)[id], c, kind) else id in store && SameKind(store[id], After(store, c)[id], kind)
  {
    CommandLaunch(store, c, id);
    hide After, StartsOne, FailsOne, Activates, AsStarted, AsNamed, AsDecided;
  }

  lemma StaysAs(a: Launch, b: Launch, c: Command, kind: Kind)
    requires SameKind(a, b, kind) && As(a, c, kind)
    ensures As(b, c, kind)
  {
    hide FormTeams;
  }

  ghost predicate LastSet(run: seq<Command>, id: string, kind: Kind, i: nat)
    requires i < |run|
  {
    Sets(RunAll(run[..i]), run[i], id, kind) && forall j :: i < j < |run| ==> !Sets(RunAll(run[..j]), run[j], id, kind)
  }

  lemma SetIsLast(run: seq<Command>, id: string, kind: Kind, i: nat)
    requires i < |run|
    requires var n := |run| - 1; if Sets(RunAll(run[..n]), run[n], id, kind) then i == n else i < n && LastSet(run[..n], id, kind, i)
    ensures LastSet(run, id, kind, i)
  {
    hide RunAll, Sets;
    var n := |run| - 1;
    forall j | 0 <= j < n ensures run[..n][..j] == run[..j] && run[..n][j] == run[j] { }
  }

  /** In every run a launch has the operation, channel and sides of its last start,
      the match that was named last, and stands as it was last told to. */
  lemma {:induction false} LaunchesAreAsLastSet(run: seq<Command>, id: string, kind: Kind)
    requires id in RunAll(run)
    ensures exists i :: 0 <= i < |run| && LastSet(run, id, kind, i) && As(RunAll(run)[id], run[i], kind)
    decreases |run|
  {
    hide After, Sets, As, SameKind, LastSet;
    if run != [] {
      var n := |run| - 1;
      var before := RunAll(run[..n]);
      CommandSets(before, run[n], id, kind);
      if Sets(before, run[n], id, kind) {
        SetIsLast(run, id, kind, n);
      } else {
        LaunchesAreAsLastSet(run[..n], id, kind);
        var i :| 0 <= i < n && LastSet(run[..n], id, kind, i) && As(before[id], run[..n][i], kind);
        SetIsLast(run, id, kind, i);
        assert run[..n][i] == run[i];
        StaysAs(before[id], RunAll(run)[id], run[i], kind);
      }
    }
  }
}
