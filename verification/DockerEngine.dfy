/** What the controllers rely on of a Docker engine.

    Names are unique and never change, so a container is stored under its name, and a reference
    by ID is the pair of a name and the ID that was seen under it: it stops resolving as soon as
    the container is removed, even if another one takes the name. */
module DockerEngine {
  import opened Go

  datatype State = Created | Running | Paused | Restarting | Exited | Dead

  /** The State.Running flag of an inspect reply, which is wider than the "running" status text. */
  predicate RunningFlag(s: State) {
    s == Running || s == Paused || s == Restarting
  }

  datatype Origin = ByOperator | ByOutsider

  /** A container port such as 80/tcp, or a range of them. */
  datatype PortKey = PortKey(first: nat, last: nat, proto: string)

  datatype PortBinding = PortBinding(hostIP: string, hostPort: string)

  datatype Config = Config(image: string, cmd: seq<string>, env: seq<string>, exposed: set<PortKey>)

  datatype HostConfig = HostConfig(
    restartPolicy: string,
    nanoCPUs: int64,
    memory: int64,
    networkMode: string,
    bindings: map<PortKey, seq<PortBinding>>,
    binds: seq<string>)

  datatype Container = Container(
    id: nat,
    origin: Origin,
    state: State,
    exitCode: int,
    config: Config,
    host: HostConfig,
    labels: map<string, string>,
    uploads: seq<string>)  // secrets copied in, by secret name

  /** What never changes about a container. */
  predicate SameMake(c: Container, d: Container) {
    c.id == d.id && c.origin == d.origin && c.config == d.config && c.host == d.host
  }

  /** The command and environment an image brings along. */
  datatype ImageDefaults = ImageDefaults(cmd: seq<string>, env: seq<string>)

  datatype Engine = Engine(
    containers: map<string, Container>,
    nextId: nat,
    images: map<string, ImageDefaults>)

  datatype Ref = ByName(name: string) | ById(name: string, id: nat)

  /** What a client call reports: IsErrNotFound tells NotFound from the other errors. */
  datatype Err = Ok | NotFound | Failure

  /** A call is performed and acknowledged, not performed, or performed with its reply lost. */
  datatype Outcome = Done | Refused | ReplyLost

  function Seen(o: Outcome, e: Err): Err {
    if o == Done then e else Failure
  }

  predicate Resolves(en: Engine, ref: Ref) {
    ref.name in en.containers && (ref.ById? ==> en.containers[ref.name].id == ref.id)
  }

  /** The engine completes a request with the defaults of its image. */
  function Completed(en: Engine, config: Config): Config {
    if config.image !in en.images then config
    else
      var defaults := en.images[config.image];
      config.(cmd := if config.cmd == [] then defaults.cmd else config.cmd, env := config.env + defaults.env)
  }

  function Create(
    en: Engine, name: string, config: Config, host: HostConfig, origin: Origin, o: Outcome): (Engine, Err)
  {
    if o == Refused || name in en.containers then (en, Failure)
    else
      var c := Container(en.nextId, origin, Created, 0, Completed(en, config), host, map[], []);
      (en.(containers := en.containers[name := c], nextId := en.nextId + 1), Seen(o, Ok))
  }

  /** Starting a container whose Running flag is set answers 304, which the client takes for success. */
  function Start(en: Engine, ref: Ref, o: Outcome): (Engine, Err) {
    if o == Refused then (en, Failure)
    else if !Resolves(en, ref) then (en, Seen(o, NotFound))
    else
      var c := en.containers[ref.name];
      if c.state == Paused || c.state == Dead then (en, Failure)
      else if RunningFlag(c.state) then (en, Seen(o, Ok))
      else (en.(containers := en.containers[ref.name := c.(state := Running)]), Seen(o, Ok))
  }

  function Stop(en: Engine, ref: Ref, o: Outcome): (Engine, Err) {
    if o == Refused then (en, Failure)
    else if !Resolves(en, ref) then (en, Seen(o, NotFound))
    else
      var c := en.containers[ref.name];
      if !RunningFlag(c.state) then (en, Seen(o, Ok))
      else (en.(containers := en.containers[ref.name := c.(state := Exited, exitCode := 137)]), Seen(o, Ok))
  }

  /** Removal is always forced by the controllers. */
  function Remove(en: Engine, ref: Ref, o: Outcome): (Engine, Err) {
    if o == Refused then (en, Failure)
    else if !Resolves(en, ref) then (en, Seen(o, NotFound))
    else (en.(containers := en.containers - {ref.name}), Seen(o, Ok))
  }

  function Inspect(en: Engine, ref: Ref, o: Outcome): (Option<Container>, Err) {
    if o != Done then (None, Failure)
    else if !Resolves(en, ref) then (None, NotFound)
    else (Some(en.containers[ref.name]), Ok)
  }
}
