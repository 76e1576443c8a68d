/** The record types exchanged between the board client and the demand API:
    the three enumerations, the stored demand, and the bodies of the create
    and update requests. */
module Domain {

  datatype Option<T> = None | Some(value: T)

  /** `PriorityEnum`: alta, media, baixa. */
  datatype Priority = Alta | Media | Baixa

  /** `CategoryEnum`: the three board sections. */
  datatype Category = LastWeek | ThisWeek | Stalled

  /** `SubgroupEnum`: the five organisational sub-groups, in the order the
      client lists them (the first one is the create form's default). */
  datatype Subgroup = GestaoTerritorios | BiAnalytics | SetorAutonomos | AgendasIncentivos | HelpDesk

  /** A stored demand; timestamps are ISO-8601 strings supplied by the server clock. */
  datatype Demand = Demand(
    id: string,
    description: string,
    priority: Priority,
    responsible: string,
    subgroup: Subgroup,
    category: Category,
    createdAt: string,
    updatedAt: string)

  /** Body of a create request; an absent category defaults to this week. */
  datatype DemandCreate = DemandCreate(
    description: string,
    priority: Priority,
    responsible: string,
    subgroup: Subgroup,
    category: Option<Category>)

  /** Body of an update request: every field is optional. */
  datatype DemandUpdate = DemandUpdate(
    description: Option<string>,
    priority: Option<Priority>,
    responsible: Option<string>,
    subgroup: Option<Subgroup>,
    category: Option<Category>)

  /** The patch a card move sends: the category and nothing else. */
  function CategoryPatch(c: Category): DemandUpdate
  {
    DemandUpdate(None, None, None, None, Some(c))
  }

  /** A filter selector that is either the sentinel "all" or one exact value. */
  datatype Selector<T(==)> = All | Only(value: T)
  {
    predicate Admits(x: T)
    {
      match this
      case All => true
      case Only(v) => v == x
    }
  }
}
