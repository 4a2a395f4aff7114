/** The agent's session table and its critical sections.
  *
  * Every function below is what one `mu.Lock() ... mu.Unlock()` region does to
  * the map of tracked sessions.  `AgentSystem` interleaves them; `AgentManager`
  * runs them one after the other.
  */
module Sessions {
  // Sessions are numbered by the launch counter, which is the part of the
  // source's identifier that makes it unique.
  type Id = nat

  datatype State = Redeeming | Preparing | Starting | Active | Stopping | Failed

  datatype Prompt = NoPrompt | AudioPrompt | HostKeyPrompt

  // `choiceOpen` is `audioChoice != nil`; an empty `sink` is "no sink".
  datatype Session = Session(
    state: State,
    connection: int,
    minimized: bool,
    prompt: Prompt,
    hostKeyPending: bool,
    choiceOpen: bool,
    sink: string,
    pid: int,
    windowState: string)

  type Table = map<Id, Session>

  const NEW_SESSION := Session(Redeeming, 0, false, NoPrompt, false, false, "", 0, "")

  function SetState(t: Table, id: Id, state: State): Table {
    if id in t then t[id := t[id].(state := state)] else t
  }

  function Bind(t: Table, id: Id, connection: int): Table {
    if id in t then t[id := t[id].(connection := connection)] else t
  }

  function Duplicates(t: Table, id: Id, connection: int): set<Id> {
    set other | other in t && other != id && t[other].connection == connection && !t[other].state.Stopping?
  }

  function OpenKeyPrompt(t: Table, id: Id): Table {
    if id in t then t[id := t[id].(hostKeyPending := true, state := Failed, prompt := HostKeyPrompt)] else t
  }

  function AttachSink(t: Table, id: Id, sink: string): Table {
    if id in t then t[id := t[id].(sink := sink)] else t
  }

  function RecordPid(t: Table, id: Id, pid: int): Table {
    if id in t then t[id := t[id].(pid := pid)] else t
  }

  function OpenAudioPrompt(t: Table, id: Id): Table
    requires id in t
  {
    t[id := t[id].(choiceOpen := true, state := Failed, prompt := AudioPrompt)]
  }

  function CloseAudioPrompt(t: Table, id: Id): Table {
    if id in t then t[id := t[id].(choiceOpen := false, prompt := NoPrompt)] else t
  }

  predicate AwaitsAudioChoice(t: Table, id: Id) {
    id in t && t[id].choiceOpen && t[id].prompt.AudioPrompt?
  }

  function TakeChoiceChannel(t: Table, id: Id): Table
    requires id in t
  {
    t[id := t[id].(choiceOpen := false)]
  }

  predicate AwaitsKeyDecision(t: Table, id: Id) {
    id in t && t[id].hostKeyPending && t[id].prompt.HostKeyPrompt?
  }

  // A session `Cancel` removes at once instead of waiting for its client.
  predicate Terminal(x: Session) {
    x.state.Failed? || x.hostKeyPending
  }

  function StopAll(t: Table): Table {
    map id | id in t :: t[id].(state := Stopping)
  }

  function Untrack(t: Table, id: Id): Table {
    map other | other in t && other != id :: t[other]
  }

  predicate Plays(x: Session, sink: string) {
    x.sink == sink && x.state.Active? && !x.minimized
  }

  predicate InUse(t: Table, sink: string) {
    exists id :: id in t && Plays(t[id], sink)
  }

  // Whether removing `id` leaves its sink to be suspended outside the lock.
  predicate LeavesSink(t: Table, id: Id) {
    id in t && t[id].sink != "" && !InUse(Untrack(t, id), t[id].sink)
  }

  // The window of a client is found by its process, so the client must be known.
  predicate CanMinimize(t: Table, id: Id) {
    id in t && t[id].state.Active? && !t[id].minimized && t[id].pid != 0
  }

  function MarkMinimized(t: Table, id: Id, windowState: string): Table
    requires id in t
  {
    t[id := t[id].(windowState := windowState, minimized := true)]
  }

  predicate CanResume(t: Table, id: Id) {
    id in t && t[id].state.Active? && t[id].minimized && t[id].windowState != ""
  }

  function MarkRestored(t: Table, id: Id): Table
    requires id in t
  {
    t[id := t[id].(minimized := false)]
  }
}
