/** The records of internal/registry/types.go and the request of internal/dockerdrv/driver.go. */
module Types {
  import opened Text

  datatype Option<+T> = None | Some(value: T)

  const SCHEMA_VERSION := 1
  const NETWORK := "decloud"
  const RESTART := "unless-stopped"
  const RECREATE := "recreate"

  type Env = map<string, string>

  /** hostPath is an absolute host path for a bind mount and a volume name otherwise. */
  datatype Mount = Mount(hostPath: string, containerPath: string, readOnly: bool)

  datatype ReadinessSpec = ReadinessSpec(kind: string, httpPath: string, timeoutSecs: int, intervalSecs: int)

  datatype ServiceConfig = ServiceConfig(
    schemaVersion: int,
    name: string,
    sourceDir: string,
    dockerfile: string,
    imageRef: string,
    network: string,
    port: int,
    restart: string,
    mounts: seq<Mount>,
    routes: seq<string>,
    strategy: string,
    disableCompression: bool,
    readiness: ReadinessSpec,
    lastDeployID: string,
    containerName: string)

  datatype ServiceSecrets = ServiceSecrets(schemaVersion: int, name: string, env: Env)

  datatype Service = Service(config: ServiceConfig, secrets: ServiceSecrets)

  datatype VolumeMount = VolumeMount(source: string, target: string, readOnly: bool, isNamed: bool)

  datatype RunRequest = RunRequest(
    name: string,
    service: string,
    image: string,
    network: string,
    env: Env,
    restart: string,
    port: int,
    volumes: seq<VolumeMount>)

  function ContainerName(service: string): string { "decloud-" + service }

  function ImageRef(service: string, deployID: string): string {
    "decloud-" + service + ":" + deployID
  }

  lemma ContainerNameInjective(a: string, b: string)
    ensures ContainerName(a) == ContainerName(b) <==> a == b
  {
    assert ContainerName(a)[8..] == a && ContainerName(b)[8..] == b;
  }

  /** The documented service names: `[a-z][a-z0-9-]{0,38}`, and not the ingress container's. */
  predicate ValidName(name: string) {
    && 1 <= |name| <= 39
    && 'a' <= name[0] <= 'z'
    && (forall i :: 0 <= i < |name| ==> NameChar(name[i]))
    && name != "caddy"
  }

  predicate NameChar(c: char) { 'a' <= c <= 'z' || '0' <= c <= '9' || c == '-' }

  lemma ValidNameHasNoSlash(name: string)
    requires ValidName(name)
    ensures name != "" && '/' !in name && '\n' !in name && ':' !in name
  {
  }
}
