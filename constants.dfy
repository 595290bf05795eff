/** Constant data and the default-point factory (`constants.tsx`). */
module Constants {
  import opened Types

  const NetworkChecklist: seq<ChecklistItem> := [
    ChecklistItem("Lançamento do Cabo", false), ChecklistItem("Conectorização", false),
    ChecklistItem("Montagem do Espelho", false), ChecklistItem("Teste de Conectividade", false)]
  const PhoneChecklist: seq<ChecklistItem> := [
    ChecklistItem("Lançamento do Cabo", false), ChecklistItem("Conectorização", false),
    ChecklistItem("Montagem do Espelho", false), ChecklistItem("Teste de Linha", false)]
  const CctvChecklist: seq<ChecklistItem> := [
    ChecklistItem("Lançamento do Cabo", false), ChecklistItem("Fixação da Câmera", false),
    ChecklistItem("Conectorização", false), ChecklistItem("Configuração", false)]
  const HdmiChecklist: seq<ChecklistItem> := [
    ChecklistItem("Lançamento do Cabo", false), ChecklistItem("Conectorização", false),
    ChecklistItem("Montagem do Espelho", false), ChecklistItem("Teste de Sinal", false)]
  const RackChecklist: seq<ChecklistItem> := [
    ChecklistItem("Montagem da Estrutura", true), ChecklistItem("Instalação dos Patch Panels", false),
    ChecklistItem("Instalação dos Switches", false), ChecklistItem("Organização de Cabos", false)]

  /** Cable plus keystone plus RJ45 plug, as used by network and phone points. */
  function UtpMaterial(qty: int): (m: seq<MaterialUsage>)
    ensures |m| == 3 && m[0] == MaterialUsage("utp", qty)
    ensures m[1] == MaterialUsage("keystone", 1) && m[2] == MaterialUsage("rj45", 1)
  {
    [MaterialUsage("utp", qty), MaterialUsage("keystone", 1), MaterialUsage("rj45", 1)]
  }

  /** A point without its id and coordinates (`Omit<ProjectPoint, 'id' | 'coords'>`). */
  datatype DefaultPoint = DefaultPoint(
    name: string,
    room: string,
    pointType: PointType,
    status: PointStatus,
    checklist: seq<ChecklistItem>,
    materials: seq<MaterialUsage>,
    notes: string,
    photos: seq<string>)

  /** The template for a freshly placed point of type `t`. */
  function CreateDefaultPoint(t: PointType): (p: DefaultPoint)
    ensures p.pointType == t && p.status == Pending && p.notes == "" && p.photos == []
    ensures p.room == "Não definido"
    ensures p.name == if t == Rack then "Novo Rack" else "Novo Ponto " + PointTypeLabel(t)
    ensures |p.checklist| == 4
    ensures forall i :: 0 <= i < |p.checklist| ==> (p.checklist[i].done <==> t == Rack && i == 0)
    ensures t == Rack ==> p.checklist[0].name == "Montagem da Estrutura"
    ensures t in {Network, Phone} ==> p.materials == UtpMaterial(1)
  {
    var name := "Novo Ponto " + PointTypeLabel(t);
    match t
    case Network => DefaultPoint(name, "Não definido", t, Pending, NetworkChecklist, UtpMaterial(1), "", [])
    case Phone => DefaultPoint(name, "Não definido", t, Pending, PhoneChecklist, UtpMaterial(1), "", [])
    case Cctv =>
      DefaultPoint(name, "Não definido", t, Pending, CctvChecklist,
                   [MaterialUsage("utp", 1), MaterialUsage("camera-dome", 1)], "", [])
    case Cctv360 =>
      DefaultPoint(name, "Não definido", t, Pending, CctvChecklist,
                   [MaterialUsage("utp", 1), MaterialUsage("camera-360", 1)], "", [])
    case VgaHdmi =>
      DefaultPoint(name, "Não definido", t, Pending, HdmiChecklist, [MaterialUsage("hdmi-cable", 1)], "", [])
    case Rack =>
      DefaultPoint("Novo Rack", "Não definido", t, Pending, RackChecklist, [MaterialUsage("switch-24", 1)], "", [])
  }

  /** The two camera types share one checklist and differ only in the camera
      material; everything else but the type and the name is identical. */
  lemma CameraPointsDifferOnlyInCamera()
    ensures CreateDefaultPoint(Cctv).checklist == CreateDefaultPoint(Cctv360).checklist
    ensures CreateDefaultPoint(Cctv).materials[0] == CreateDefaultPoint(Cctv360).materials[0]
    ensures |CreateDefaultPoint(Cctv).materials| == |CreateDefaultPoint(Cctv360).materials| == 2
    ensures CreateDefaultPoint(Cctv).materials[1].materialId == "camera-dome"
    ensures CreateDefaultPoint(Cctv360).materials[1].materialId == "camera-360"
  {
  }

  const FinancialDataInitial: FinancialData := FinancialData(0, 0, 0, [])

  const ProjectPhases: seq<ProjectPhase> := [
    ProjectPhase("Fase 1: Lançamento de Cabeamento", [Network, Phone, VgaHdmi, Cctv, Cctv360]),
    ProjectPhase("Fase 2: Montagem do Rack e Patch Panels", [Rack]),
    ProjectPhase("Fase 3: Instalação de Câmeras e Pontos de Acesso", [Cctv, Cctv360]),
    ProjectPhase("Fase 4: Conectorização e Montagem dos Pontos", [Network, Phone, VgaHdmi]),
    ProjectPhase("Fase 5: Configuração e Testes Finais", [])]

  /** Five phases; only the last (final tests) lists no types, meaning "all points". */
  lemma ProjectPhasesShape()
    ensures |ProjectPhases| == 5
    ensures forall i :: 0 <= i < |ProjectPhases| ==> (ProjectPhases[i].relevantPointTypes == [] <==> i == 4)
  {
  }

  const InitialKanbanColumns: map<KanbanColumnId, KanbanColumn> := map[
    Todo := KanbanColumn(Todo, "A Fazer", []),
    Inprogress := KanbanColumn(Inprogress, "Em Andamento", []),
    Done := KanbanColumn(Done, "Concluído", [])]

  /** Exactly the three stages, each keyed by its own id and empty. */
  lemma InitialKanbanColumnsShape()
    ensures InitialKanbanColumns.Keys == {Todo, Inprogress, Done}
    ensures forall c :: c in InitialKanbanColumns ==>
      InitialKanbanColumns[c].id == c && InitialKanbanColumns[c].taskIds == []
  {
  }
}
