/**
 * The shape of one issue record as the table reads it. Only the fields that the
 * search and the filter option lists look at are kept; the record is supplied
 * from outside and never changed by the table.
 */
module Issues {

  /** A record field as JavaScript sees it: absent (`undefined` or `null`) or a string. */
  datatype Value = Missing | Str(s: string) {

    /** JavaScript truthiness, as `Boolean(v)` decides it: only a non-empty string is truthy. */
    predicate Truthy()
    {
      Str? && s != ""
    }
  }

  /** The five columns that have a filter drop-down. */
  datatype Field = Status | Project | Priority | Assignee | Cycle

  datatype Issue = Issue(
    identifier: Value,
    title: Value,
    status: Value,
    project: Value,
    priority: Value,
    assignee: Value,
    cycle: Value)

  /** The column id under which a field is keyed in the table state. */
  function ColumnId(f: Field): string
  {
    match f
    case Status => "status"
    case Project => "project"
    case Priority => "priority"
    case Assignee => "assignee"
    case Cycle => "cycle"
  }

  /** `item[key]` for one of the filterable keys. */
  function Get(item: Issue, f: Field): Value
  {
    match f
    case Status => item.status
    case Project => item.project
    case Priority => item.priority
    case Assignee => item.assignee
    case Cycle => item.cycle
  }
}
