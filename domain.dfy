/**
 * The persistent entities the core works on: categories, transactions and
 * financial goals. Users appear only as their ids.
 */
module Domain {
  import opened Wrappers
  import opened Dates

  type UserId = int

  /** Income or expense: the constants of both Transaction.TransactionType and Category.CategoryType. */
  datatype Kind = Income | Expense

  /** The enum constant's `name()`. */
  function KindName(k: Kind): string {
    match k
    case Income => "INCOME"
    case Expense => "EXPENSE"
  }

  /** A category; a category without owner is global (shared by every user). */
  datatype Category = Category(id: int, name: string, kind: Kind, owner: Option<UserId>)

  /** A category may use `user`: it is global or owned by `user`. */
  predicate Accessible(c: Category, user: UserId) {
    c.owner.None? || c.owner.value == user
  }

  /**
   * The category attached to a goal: either a stub carrying only an id
   * (as built from a request) or the category loaded from its repository.
   */
  datatype CategoryRef = IdOnly(id: int) | Loaded(category: Category) {
    function Id(): int {
      match this
      case IdOnly(i) => i
      case Loaded(c) => c.id
    }
  }

  datatype Transaction = Transaction(
    id: int,
    amount: real,
    kind: Kind,
    date: Date,
    description: string,
    category: Option<Category>,
    owner: UserId)

  datatype Goal = Goal(
    id: Option<int>,
    name: string,
    description: string,
    targetAmount: real,
    currentAmount: real,
    startDate: Date,
    endDate: Option<Date>,
    achieved: bool,
    category: Option<CategoryRef>,
    owner: Option<UserId>)

  /** The failures the services raise (exception messages become constructors). */
  datatype ServiceError =
    | UserNotFound
    | CategoryNotFound
    | TransactionNotFound
    | GoalNotFound
    | AccessDenied
    | MissingCategory  // dereferencing the category of a transaction stored without one
}
