/** The records shared by the control plane and the agent. */
module Api {
  datatype Option<+T> = None | Some(value: T)

  /** What an operator wants applied on a machine. A nil and an empty
      config have the same JSON form, so one map stands for both. */
  datatype ModuleSpec = ModuleSpec(name: string, version: string, config: map<string, string>)

  /** `modules` is None until the first computation: a nil list is the
      JSON `null`, which differs from the empty list `[]`. */
  datatype DesiredState = DesiredState(revision: int, modules: Option<seq<ModuleSpec>>)

  datatype RunState = Applied | Failed

  datatype ModuleStatus = ModuleStatus(name: string, version: string, state: RunState, detail: string, atUnix: int)

  /** The host inventory is carried but never inspected. */
  datatype Inventory = Inventory(text: string)

  datatype Machine = Machine(
    id: string, tenantID: string, name: string, labels: map<string, string>,
    enrolled: int, lastSeen: int, inventory: Inventory,
    override: seq<ModuleSpec>, desired: DesiredState, status: seq<ModuleStatus>)

  datatype Group = Group(
    id: string, tenantID: string, name: string, matchAll: bool,
    selector: map<string, string>, modules: seq<ModuleSpec>, created: int)

  datatype Tenant = Tenant(id: string, name: string, created: int)

  datatype ModuleArtifact = ModuleArtifact(
    name: string, version: string, exec: string, payload: string, signature: string)

  datatype EnrollToken = EnrollToken(
    token: string, tenantID: string, labels: map<string, string>, created: int,
    expiresAt: int, maxUses: int, uses: int, used: bool)

  function Modules(d: DesiredState): seq<ModuleSpec> {
    if d.modules.None? then [] else d.modules.value
  }
}
