/** The entities of the construction-tracking dashboard (`types.ts`). Amounts
    of money are integer cents; floor-plan coordinates are percentages kept as
    reals. Enumerations carry the display label the source uses as their value. */
module Types {

  datatype Option<T> = None | Some(value: T)

  datatype PointStatus = Pending | InProgress | Completed | Alert

  datatype PointType = Network | Phone | VgaHdmi | Cctv | Cctv360 | Rack

  /** The string value of each `PointType` member; it appears in generated names. */
  function PointTypeLabel(t: PointType): string
  {
    match t
    case Network => "Rede"
    case Phone => "Telefone"
    case VgaHdmi => "VGA/HDMI"
    case Cctv => "CFTV"
    case Cctv360 => "CFTV 360"
    case Rack => "Rack"
  }

  /** `Object.values(PointType)`, in declaration order. */
  const AllPointTypes: seq<PointType> := [Network, Phone, VgaHdmi, Cctv, Cctv360, Rack]

  datatype ChecklistItem = ChecklistItem(name: string, done: bool)

  datatype MaterialUsage = MaterialUsage(materialId: string, quantity: int)

  /** Position on the floor plan, in percent of its width and height. */
  datatype Coords = Coords(x: real, y: real)

  datatype ProjectPoint = ProjectPoint(
    id: string,
    name: string,
    room: string,
    pointType: PointType,
    status: PointStatus,
    coords: Coords,
    checklist: seq<ChecklistItem>,
    materials: seq<MaterialUsage>,
    notes: string,
    photos: seq<string>)

  datatype UpdatePointDetailsPayload = UpdatePointDetailsPayload(notes: string, photos: seq<string>)

  datatype ProjectPhase = ProjectPhase(name: string, relevantPointTypes: seq<PointType>)

  datatype CostCategory = Transportation | Tools | Permits | Other

  function CostCategoryLabel(c: CostCategory): string
  {
    match c
    case Transportation => "Transporte"
    case Tools => "Ferramentas"
    case Permits => "Licenças"
    case Other => "Outros"
  }

  /** A cost ledger entry; `amount` is in cents. */
  datatype CostEntry = CostEntry(id: int, date: string, description: string, amount: int, category: CostCategory)

  /** A cost entry before the ledger assigns it an id (`Omit<CostEntry, 'id'>`). */
  datatype NewCostEntry = NewCostEntry(date: string, description: string, amount: int, category: CostCategory)

  function WithEntryId(e: NewCostEntry, id: int): CostEntry
  {
    CostEntry(id, e.date, e.description, e.amount, e.category)
  }

  /** Budget and costs, all in cents. */
  datatype FinancialData = FinancialData(budget: int, materials: int, labor: int, costEntries: seq<CostEntry>)

  datatype TaskPriority = Baixa | Media | Alta

  /** The three kanban stages 'todo' | 'inprogress' | 'done'. */
  datatype KanbanColumnId = Todo | Inprogress | Done

  datatype KanbanTask = KanbanTask(
    id: string,
    title: string,
    assigneeId: string,
    priority: TaskPriority,
    dueDate: string,
    column: KanbanColumnId)

  /** The fields the add-task form supplies (`Omit<KanbanTask, 'id' | 'column'>`). */
  datatype NewTask = NewTask(title: string, assigneeId: string, priority: TaskPriority, dueDate: string)

  datatype KanbanColumn = KanbanColumn(id: KanbanColumnId, title: string, taskIds: seq<string>)
}
