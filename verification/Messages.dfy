/** What the app loop and its workers send each other (src/app.rs,
    src/app/server.rs, src/domain.rs). */
module Messages {
  import opened Domain
  import opened Llama

  /** Where a sample came from. Not carried by the program: a history variable
      that lets theorems speak about the monitor that produced it. `cell`
      names the poll slot's monitor and flag, `spec` what that monitor was
      built for, `serial` its place in production order. */
  datatype Origin = Origin(cell: nat, spec: ServerSpec, serial: nat)

  datatype LlmSample = LlmSample(server: string, generation: nat, stats: LlmStats, origin: Origin)

  datatype LlmCommand = SetServers(generation: nat, servers: seq<ServerSpec>)

  /** Which process's GPUs the fast worker should attribute from now on. */
  datatype IdentityUpdate = IdentityUpdate(generation: nat, identity: Option<LocalServerIdentity>)

  /** One attribution scan: the process it was for and the start time read then.
      Kept with the mapping as a history variable. */
  datatype Scan = Scan(expected: LocalServerIdentity, currentStart: Option<nat>)

  datatype GpuMapping =
    | NoMapping
    | Unknown(scan: Scan)
    | Attributed(scan: Scan, devices: seq<string>)

  datatype FastSnapshot = FastSnapshot(gpuMap: GpuMapping, mappingGeneration: nat)

  /** `map_server_identity`; `evidence` is what the device evidence resolves to. */
  function MapServerIdentity(scan: Scan, evidence: seq<string>): GpuMapping {
    if scan.currentStart != Some(scan.expected.startTime) then Unknown(scan)
    else if evidence == [] then Unknown(scan)
    else Attributed(scan, evidence)
  }

  /** The app keeps a mapping only under these terms. */
  predicate MappingFor(m: GpuMapping, identity: Option<LocalServerIdentity>) {
    && (!m.NoMapping? ==> identity == Some(m.scan.expected))
    && (m.Attributed? ==> m.scan.currentStart == Some(m.scan.expected.startTime) && m.devices != [])
  }
}
