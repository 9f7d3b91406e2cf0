/**
 * The records and enumerations of the ledger (src/types/index.ts), plus the
 * session record that the login page stores and every page reads back.
 *
 * Timestamps are integer epoch milliseconds; the source keeps them as ISO
 * strings and lets the hosted store compare them. Money amounts are integers
 * (the ledger is in dong); fee percentages are reals.
 */
module Types {

  import opened Wrappers

  // ---------------------------------------------------------------- roles

  datatype Role = Admin | Manager | Sale

  function RoleName(r: Role): string {
    match r
    case Admin => "admin"
    case Manager => "manager"
    case Sale => "sale"
  }

  /** Reads the `role` column: exactly the three names are roles. */
  function ParseRole(s: string): (r: Option<Role>)
    ensures r.Some? <==> s in {"admin", "manager", "sale"}
    ensures r.Some? ==> RoleName(r.value) == s
  {
    if s == "admin" then Some(Admin)
    else if s == "manager" then Some(Manager)
    else if s == "sale" then Some(Sale)
    else None
  }

  lemma RoleNameRoundTrip(r: Role)
    ensures ParseRole(RoleName(r)) == Some(r)
  {
  }

  /** Admins and managers see every transaction and manage users. */
  predicate IsPrivileged(r: Role) {
    r == Admin || r == Manager
  }

  // -------------------------------------------------------- transactions

  datatype TxType = Withdraw | Rollover | WithdrawAndRollover

  function TxTypeName(t: TxType): string {
    match t
    case Withdraw => "Rút"
    case Rollover => "Đáo"
    case WithdrawAndRollover => "Rút+Đáo"
  }

  function ParseTxType(s: string): (r: Option<TxType>)
    ensures r.Some? <==> s in {"Rút", "Đáo", "Rút+Đáo"}
    ensures r.Some? ==> TxTypeName(r.value) == s
  {
    if s == "Rút" then Some(Withdraw)
    else if s == "Đáo" then Some(Rollover)
    else if s == "Rút+Đáo" then Some(WithdrawAndRollover)
    else None
  }

  lemma TxTypeNameRoundTrip(t: TxType)
    ensures ParseTxType(TxTypeName(t)) == Some(t)
  {
  }

  datatype TxStatus = Unpaid | Paid

  function TxStatusName(s: TxStatus): string {
    match s
    case Unpaid => "Chưa thanh toán"
    case Paid => "Đã thanh toán"
  }

  function ParseTxStatus(s: string): (r: Option<TxStatus>)
    ensures r.Some? <==> s in {"Chưa thanh toán", "Đã thanh toán"}
    ensures r.Some? ==> TxStatusName(r.value) == s
  {
    if s == "Chưa thanh toán" then Some(Unpaid)
    else if s == "Đã thanh toán" then Some(Paid)
    else None
  }

  lemma TxStatusNameRoundTrip(s: TxStatus)
    ensures ParseTxStatus(TxStatusName(s)) == Some(s)
  {
  }

  /**
   * A ledger row. Only `amount` among the money fields is required; the fee
   * legs, the profit and the image lists may be missing, `edit_count` may not.
   */
  datatype Transaction = Transaction(
    id: string,
    timestamp: int,
    sale: string,
    agency: string,
    customer: string,
    bank: string,
    cardType: string,
    last4: string,
    txType: TxType,
    amount: int,
    withdrawAmt: Option<int>,
    pos: Option<string>,
    posFee: Option<real>,
    posAmt: Option<int>,
    custFee: Option<real>,
    custAmt: Option<int>,
    profit: Option<int>,
    status: TxStatus,
    imgDeposit: Option<seq<string>>,
    imgWithdraw: Option<seq<string>>,
    imgInvoice: Option<seq<string>>,
    createdBy: string,
    createdAt: int,
    editCount: int,
    updatedAt: int)

  /** `t.profit || 0`: a missing profit counts as zero. */
  function ProfitOrZero(t: Transaction): (p: int)
    ensures t.profit.None? ==> p == 0
    ensures t.profit.Some? ==> p == t.profit.value
  {
    match t.profit
    case None => 0
    case Some(p) => p
  }

  // --------------------------------------------------------------- tasks

  datatype TaskStatus = Todo | InProgress | Review | Done

  function TaskStatusName(s: TaskStatus): string {
    match s
    case Todo => "todo"
    case InProgress => "in_progress"
    case Review => "review"
    case Done => "done"
  }

  function ParseTaskStatus(s: string): (r: Option<TaskStatus>)
    ensures r.Some? <==> s in {"todo", "in_progress", "review", "done"}
    ensures r.Some? ==> TaskStatusName(r.value) == s
  {
    if s == "todo" then Some(Todo)
    else if s == "in_progress" then Some(InProgress)
    else if s == "review" then Some(Review)
    else if s == "done" then Some(Done)
    else None
  }

  lemma TaskStatusNameRoundTrip(s: TaskStatus)
    ensures ParseTaskStatus(TaskStatusName(s)) == Some(s)
  {
  }

  datatype TaskPriority = Low | Medium | High | Urgent

  function TaskPriorityName(p: TaskPriority): string {
    match p
    case Low => "low"
    case Medium => "medium"
    case High => "high"
    case Urgent => "urgent"
  }

  function ParseTaskPriority(s: string): (r: Option<TaskPriority>)
    ensures r.Some? <==> s in {"low", "medium", "high", "urgent"}
    ensures r.Some? ==> TaskPriorityName(r.value) == s
  {
    if s == "low" then Some(Low)
    else if s == "medium" then Some(Medium)
    else if s == "high" then Some(High)
    else if s == "urgent" then Some(Urgent)
    else None
  }

  lemma TaskPriorityNameRoundTrip(p: TaskPriority)
    ensures ParseTaskPriority(TaskPriorityName(p)) == Some(p)
  {
  }

  /** A kanban card; `assignees` and `createdBy` hold usernames. */
  datatype Task = Task(
    id: string,
    title: string,
    description: string,
    status: TaskStatus,
    priority: TaskPriority,
    assignees: seq<string>,
    tags: seq<string>,
    dueDate: Option<int>,
    createdBy: string,
    createdAt: int,
    updatedAt: int,
    index: int)

  datatype TaskComment = TaskComment(id: string, taskId: string, userId: string, content: string, createdAt: int)

  datatype TaskHistory = TaskHistory(id: string, taskId: string, userId: string, action: string, details: string, createdAt: int)

  datatype Notification = Notification(
    id: string,
    userId: string,
    title: string,
    message: string,
    link: Option<string>,
    isRead: bool,
    createdAt: int)

  // --------------------------------------------------------------- users

  /** A `users` row as the store holds it, with the (plain text) password. */
  datatype StoredUser = StoredUser(
    id: string,
    username: string,
    passwordHash: string,
    role: Role,
    displayName: string,
    avatarUrl: Option<string>,
    createdAt: int,
    updatedAt: int)

  /** The `User` interface: a stored user without its password. */
  datatype User = User(
    id: string,
    username: string,
    role: Role,
    displayName: string,
    avatarUrl: Option<string>,
    createdAt: int,
    updatedAt: int)

  /** The condition `.eq('username', name)` on `users`. */
  function HasUsername(name: string): StoredUser -> bool {
    (u: StoredUser) => u.username == name
  }

  /**
   * The typed fields of a `users` row, as the `User` interface declares them.
   * The rows `select('*')` returns at run time also carry `password_hash`,
   * which the views that list users never read; this record leaves it out.
   */
  function AsUser(u: StoredUser): User {
    User(u.id, u.username, u.role, u.displayName, u.avatarUrl, u.createdAt, u.updatedAt)
  }

  /**
   * The record kept in browser storage under `ozifin_user`: the five fields
   * the login page copies, and nothing else (no password).
   */
  datatype Session = Session(
    id: string,
    username: string,
    role: Role,
    displayName: string,
    avatarUrl: Option<string>)
}
