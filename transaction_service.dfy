/**
 * TransactionServiceImpl: the transaction store, guarded by the owner of
 * each transaction and by access to the category it is filed under. As for
 * goals, each operation is a function of the store's contents, performed in
 * place by a method of `TransactionStore`.
 */
module TransactionService {
  import opened Wrappers
  import opened Dates
  import opened Domain
  import opened TransactionQueries
  import opened Windows
  import StoreKeys

  /** The fields a client submits for a transaction (the category by id only). */
  datatype TransactionDetails = TransactionDetails(
    amount: real,
    kind: Kind,
    date: Date,
    description: string,
    categoryId: int)

  /** The state a save or update leaves: the new store and the transaction as stored. */
  datatype Stored = Stored(entries: map<int, Transaction>, transaction: Transaction)

  /** `findById`: the transaction must exist, then the user, and the transaction must be the user's. */
  function FindTransaction(txs: map<int, Transaction>, users: map<string, UserId>, id: int, username: string)
    : (r: Result<Transaction, ServiceError>)
    ensures r.Ok? <==> id in txs && username in users && txs[id].owner == users[username]
    ensures r.Ok? ==> r.value == txs[id]
    ensures id !in txs ==> r == Err(TransactionNotFound)
    ensures id in txs && username !in users ==> r == Err(UserNotFound)
    ensures id in txs && username in users && txs[id].owner != users[username] ==> r == Err(AccessDenied)
  {
    if id !in txs then Err(TransactionNotFound)
    else if username !in users then Err(UserNotFound)
    else if txs[id].owner != users[username] then Err(AccessDenied)
    else Ok(txs[id])
  }

  /**
   * `save`: the user and the category must exist, and the category must be
   * global or the user's; the transaction is stored under `freshId`, owned
   * by the user and filed under the loaded category.
   */
  function SaveTransaction(txs: map<int, Transaction>, categories: map<int, Category>, users: map<string, UserId>,
                           username: string, d: TransactionDetails, freshId: int): Result<Stored, ServiceError>
  {
    if username !in users then Err(UserNotFound)
    else if d.categoryId !in categories then Err(CategoryNotFound)
    else if !Accessible(categories[d.categoryId], users[username]) then Err(AccessDenied)
    else
      var t := Transaction(freshId, d.amount, d.kind, d.date, d.description,
                           Some(categories[d.categoryId]), users[username]);
      Ok(Stored(txs[freshId := t], t))
  }

  /**
   * `update`: after the `findById` checks, amount, description, date and
   * type are copied; the category is replaced only when the submitted id
   * differs, after the lookup and access checks. A failure leaves the store
   * as it was (the method is transactional).
   */
  function UpdateTransaction(txs: map<int, Transaction>, categories: map<int, Category>, users: map<string, UserId>,
                             id: int, d: TransactionDetails, username: string): Result<Stored, ServiceError>
  {
    match FindTransaction(txs, users, id, username)
    case Err(e) => Err(e)
    case Ok(t) =>
      var copied := t.(amount := d.amount, description := d.description, date := d.date, kind := d.kind);
      if t.category.None? then Err(MissingCategory)
      else if t.category.value.id == d.categoryId then Ok(Stored(txs[id := copied], copied))
      else if d.categoryId !in categories then Err(CategoryNotFound)
      else if !Accessible(categories[d.categoryId], users[username]) then Err(AccessDenied)
      else
        var moved := copied.(category := Some(categories[d.categoryId]));
        Ok(Stored(txs[id := moved], moved))
  }

  /** `delete`: after the `findById` checks, removes the transaction. */
  function DeleteTransaction(txs: map<int, Transaction>, users: map<string, UserId>, id: int, username: string)
    : Result<map<int, Transaction>, ServiceError>
  {
    match FindTransaction(txs, users, id, username)
    case Err(e) => Err(e)
    case Ok(_) => Ok(txs - {id})
  }

  /**
   * `findByFilters` over the transaction table `rows`: missing dates take the
   * current-month defaults; a category id must name an existing category
   * (its owner is not checked) and narrows the result to it.
   */
  function FilteredTransactions(rows: seq<Transaction>, categories: map<int, Category>, users: map<string, UserId>,
                         username: string, categoryId: Option<int>, start: Option<Date>, end: Option<Date>,
                         today: Date): Result<seq<Transaction>, ServiceError>
  {
    if username !in users then Err(UserNotFound)
    else
      var w := ResolveWindow(start, end, today);
      if categoryId.Some? then
        if categoryId.value !in categories then Err(CategoryNotFound)
        else Ok(FindByUserAndCategoryAndDateBetween(rows, users[username], categories[categoryId.value], w.start, w.end))
      else Ok(FindByUserAndDateBetween(rows, users[username], w.start, w.end))
  }

  // -------------------------------------------------------------- properties

  /**
   * A save fails exactly for an unknown user, an unknown category or another
   * user's category; a successful one adds the transaction under the fresh
   * id, owned by the caller, filed under the loaded category, and changes
   * nothing else.
   */
  lemma SaveTransactionEffect(txs: map<int, Transaction>, categories: map<int, Category>, users: map<string, UserId>,
                              username: string, d: TransactionDetails, freshId: int)
    ensures var r := SaveTransaction(txs, categories, users, username, d, freshId);
      (r == Err(UserNotFound) <==> username !in users)
      && (r == Err(CategoryNotFound) <==> username in users && d.categoryId !in categories)
      && (r == Err(AccessDenied) <==> username in users && d.categoryId in categories
                                       && !Accessible(categories[d.categoryId], users[username]))
      && (r.Ok? ==>
            var t := r.value.transaction;
            r.value.entries == txs[freshId := t]
            && t.id == freshId && t.owner == users[username]
            && t.category == Some(categories[d.categoryId])
            && Accessible(categories[d.categoryId], t.owner)
            && t.amount == d.amount && t.kind == d.kind && t.date == d.date && t.description == d.description)
  {
  }

  /**
   * A successful update keeps the id, the owner and every other entry,
   * copies the submitted fields, and either keeps the category (same id) or
   * moves the transaction to the submitted category, which the caller may use.
   */
  lemma UpdateTransactionEffect(txs: map<int, Transaction>, categories: map<int, Category>, users: map<string, UserId>,
                                id: int, d: TransactionDetails, username: string)
    ensures var r := UpdateTransaction(txs, categories, users, id, d, username);
      r.Ok? ==>
        var old_ := txs[id];
        var t := r.value.transaction;
        FindTransaction(txs, users, id, username).Ok?
        && r.value.entries == txs[id := t]
        && t.id == old_.id && t.owner == old_.owner
        && t.amount == d.amount && t.description == d.description && t.date == d.date && t.kind == d.kind
        && old_.category.Some? && t.category.Some?
        && (old_.category.value.id == d.categoryId ==> t.category == old_.category)
        && (old_.category.value.id != d.categoryId ==>
              d.categoryId in categories && t.category == Some(categories[d.categoryId])
              && Accessible(categories[d.categoryId], t.owner))
  {
  }

  /** Update fails exactly when the lookup fails or the category change is refused. */
  lemma UpdateTransactionErrors(txs: map<int, Transaction>, categories: map<int, Category>, users: map<string, UserId>,
                                id: int, d: TransactionDetails, username: string)
    ensures var r := UpdateTransaction(txs, categories, users, id, d, username);
      var f := FindTransaction(txs, users, id, username);
      (f.Err? ==> r == Err(f.error))
      && (f.Ok? && txs[id].category.Some? && txs[id].category.value.id != d.categoryId ==>
            (r == Err(CategoryNotFound) <==> d.categoryId !in categories)
            && (r == Err(AccessDenied) <==> d.categoryId in categories
                                             && !Accessible(categories[d.categoryId], users[username])))
      && (f.Ok? && txs[id].category.Some? && txs[id].category.value.id == d.categoryId ==> r.Ok?)
  {
  }

  /** Delete acts only on a transaction that exists and belongs to the caller, and removes only it. */
  lemma DeleteTransactionGuarded(txs: map<int, Transaction>, users: map<string, UserId>, id: int, username: string)
    ensures var r := DeleteTransaction(txs, users, id, username);
      (r.Ok? <==> FindTransaction(txs, users, id, username).Ok?)
      && (r.Ok? ==> r.value == txs - {id} && txs[id].owner == users[username])
  {
  }

  /**
   * The filtered listing holds exactly the caller's transactions dated in
   * the resolved window and, when a category id is given, filed under it.
   */
  lemma FilteredTransactionsSelect(rows: seq<Transaction>, categories: map<int, Category>, users: map<string, UserId>,
                             username: string, categoryId: Option<int>, start: Option<Date>, end: Option<Date>, today: Date)
    ensures var r := FilteredTransactions(rows, categories, users, username, categoryId, start, end, today);
      (r == Err(UserNotFound) <==> username !in users)
      && (r == Err(CategoryNotFound) <==> username in users && categoryId.Some? && categoryId.value !in categories)
      && (r.Ok? ==>
            var w := ResolveWindow(start, end, today);
            forall t :: t in r.value <==>
              t in rows && t.owner == users[username] && InWindow(t.date, w.start, w.end)
              && (categoryId.Some? ==> InCategory(t, categories[categoryId.value].id)))
  {
    if username in users && categoryId.Some? && categoryId.value in categories {
      var w := ResolveWindow(start, end, today);
      var c := categories[categoryId.value];
      CategoryQueryRefinesWindowQuery(rows, users[username], c, w.start, w.end);
    }
  }

  // ------------------------------------------------------------ the store

  /**
   * The transaction repository behind `TransactionServiceImpl`: `txs` maps
   * ids to transactions, `ids` lists them in insertion order, `nextId` is
   * the id of the next insertion.
   */
  class TransactionStore {
    var txs: map<int, Transaction>
    var ids: seq<int>
    var nextId: int
    const categories: map<int, Category>
    const users: map<string, UserId>

    /** `ids` lists exactly the stored ids, once each; every transaction carries its key and a category. */
    ghost predicate Valid()
      reads this
    {
      StoreKeys.Unique(ids)
      && (forall i | 0 <= i < |ids| :: ids[i] in txs)
      && (forall k | k in txs :: k in ids)
      && forall k | k in txs :: k < nextId && txs[k].id == k && txs[k].category.Some?
    }

    /** The transaction table in insertion order. */
    function Rows(): seq<Transaction>
      reads this
      requires Valid()
    {
      StoreKeys.Listing(txs, ids)
    }

    constructor (categories: map<int, Category>, users: map<string, UserId>)
      ensures Valid() && txs == map[] && ids == []
      ensures this.categories == categories && this.users == users
    {
      this.categories := categories;
      this.users := users;
      txs := map[];
      ids := [];
      nextId := 1;
    }

    method FindById(id: int, username: string) returns (r: Result<Transaction, ServiceError>)
      ensures r == FindTransaction(txs, users, id, username)
    {
      if id !in txs {
        return Err(TransactionNotFound);
      }
      if username !in users {
        return Err(UserNotFound);
      }
      var t := txs[id];
      if t.owner != users[username] {
        return Err(AccessDenied);
      }
      return Ok(t);
    }

    /** `save`: a new transaction, appended to the table under the next id. */
    method Save(d: TransactionDetails, username: string) returns (r: Result<Transaction, ServiceError>)
      requires Valid()
      modifies this
      ensures Valid()
      ensures match SaveTransaction(old(txs), categories, users, username, d, old(nextId))
        case Ok(s) => r == Ok(s.transaction) && txs == s.entries && ids == old(ids) + [old(nextId)]
        case Err(e) => r == Err(e) && txs == old(txs) && ids == old(ids)
    {
      if username !in users {
        return Err(UserNotFound);
      }
      var user := users[username];
      if d.categoryId !in categories {
        return Err(CategoryNotFound);
      }
      var category := categories[d.categoryId];
      if !Accessible(category, user) {
        return Err(AccessDenied);
      }
      var t := Transaction(nextId, d.amount, d.kind, d.date, d.description, Some(category), user);
      txs := txs[nextId := t];
      ids := ids + [nextId];
      nextId := nextId + 1;
      return Ok(t);
    }

    /** `update`: overwrites the stored transaction's fields in place. */
    method Update(id: int, d: TransactionDetails, username: string) returns (r: Result<Transaction, ServiceError>)
      requires Valid()
      modifies this`txs
      ensures Valid()
      ensures match UpdateTransaction(old(txs), categories, users, id, d, username)
        case Ok(s) => r == Ok(s.transaction) && txs == s.entries
        case Err(e) => r == Err(e) && txs == old(txs)
    {
      var found := FindById(id, username);
      if found.Err? {
        return Err(found.error);
      }
      var t := found.value;
      var current := t.category.value;
      t := t.(amount := d.amount, description := d.description, date := d.date, kind := d.kind);
      if current.id != d.categoryId {
        if d.categoryId !in categories {
          return Err(CategoryNotFound);
        }
        var newCategory := categories[d.categoryId];
        if !Accessible(newCategory, users[username]) {
          return Err(AccessDenied);
        }
        t := t.(category := Some(newCategory));
      }
      txs := txs[id := t];
      return Ok(t);
    }

    /** `delete`. */
    method Delete(id: int, username: string) returns (r: Result<(), ServiceError>)
      requires Valid()
      modifies this`txs, this`ids
      ensures Valid()
      ensures match DeleteTransaction(old(txs), users, id, username)
        case Ok(remaining) => r == Ok(()) && txs == remaining && ids == StoreKeys.Remove(old(ids), id)
        case Err(e) => r == Err(e) && txs == old(txs) && ids == old(ids)
    {
      var found := FindById(id, username);
      if found.Err? {
        return Err(found.error);
      }
      ghost var before := ids;
      txs := txs - {id};
      ids := StoreKeys.Remove(ids, id);
      forall i | 0 <= i < |ids|
        ensures ids[i] in txs
      {
        assert ids[i] in before;
        var j :| 0 <= j < |before| && before[j] == ids[i];
      }
      return Ok(());
    }

    /** `findByFilters` over the stored table; `today` stands for `LocalDate.now()`. */
    method FindByFilters(username: string, categoryId: Option<int>, start: Option<Date>, end: Option<Date>, today: Date)
      returns (r: Result<seq<Transaction>, ServiceError>)
      requires Valid()
      ensures r == FilteredTransactions(Rows(), categories, users, username, categoryId, start, end, today)
    {
      if username !in users {
        return Err(UserNotFound);
      }
      var user := users[username];
      var w := ResolveWindow(start, end, today);
      if categoryId.Some? {
        if categoryId.value !in categories {
          return Err(CategoryNotFound);
        }
        return Ok(FindByUserAndCategoryAndDateBetween(Rows(), user, categories[categoryId.value], w.start, w.end));
      }
      return Ok(FindByUserAndDateBetween(Rows(), user, w.start, w.end));
    }
  }
}
