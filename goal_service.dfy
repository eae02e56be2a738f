/**
 * FinancialGoalService: goals kept in an id -> goal store, guarded by the
 * owner of each goal and by access to the category a goal names. The
 * operations are first stated as functions of the store's contents
 * (Find, Save, UpdateProgress, Delete) and then performed by the methods of
 * the `GoalStore` class, which update its `goals` map in place.
 */
module GoalService {
  import opened Wrappers
  import opened Dates
  import opened Domain
  import GoalDto
  import StoreKeys

  // ----------------------------------------------------- repository queries

  /** The goals `findByUserAndAchievedTrue` selects for a user. */
  predicate AchievedBy(g: Goal, user: UserId)
  {
    g.owner == Some(user) && g.achieved
  }

  /** `findByUserAndAchievedTrue` over the goal table listed as a sequence: the selected rows in table order. */
  function AchievedGoalsOf(rows: seq<Goal>, user: UserId): (r: seq<Goal>)
    ensures forall g :: g in r <==> g in rows && AchievedBy(g, user)
    ensures |r| <= |rows|
  {
    if rows == [] then []
    else
      var last := rows[|rows| - 1];
      AchievedGoalsOf(rows[..|rows| - 1], user) + (if AchievedBy(last, user) then [last] else [])
  }

  // ------------------------------------------------- operations as functions

  /** `findById`: the goal must exist, then the user, and the goal must be the user's. */
  function FindGoal(goals: map<int, Goal>, users: map<string, UserId>, id: int, username: string): (r: Result<Goal, ServiceError>)
    ensures r.Ok? <==> id in goals && username in users && goals[id].owner == Some(users[username])
    ensures r.Ok? ==> r.value == goals[id]
    ensures id !in goals ==> r == Err(GoalNotFound)
    ensures id in goals && username !in users ==> r == Err(UserNotFound)
    ensures id in goals && username in users && goals[id].owner != Some(users[username]) ==> r == Err(AccessDenied)
  {
    if id !in goals then Err(GoalNotFound)
    else if username !in users then Err(UserNotFound)
    else if goals[id].owner != Some(users[username]) then Err(AccessDenied)
    else Ok(goals[id])
  }

  /** The state a save leaves: the new store and the goal as stored. */
  datatype Saved = Saved(entries: map<int, Goal>, goal: Goal)

  /**
   * `save`: the user must exist; a category named by id must exist and be
   * global or the user's, and replaces the goal's category; the user becomes
   * the owner; a current amount at or above the target sets `achieved`
   * (otherwise `achieved` keeps its incoming value). A goal with an id
   * already in the store overwrites that entry; otherwise it is inserted
   * under `freshId`.
   */
  function SaveGoal(goals: map<int, Goal>, categories: map<int, Category>, users: map<string, UserId>,
                    username: string, g: Goal, freshId: int): Result<Saved, ServiceError>
  {
    if username !in users then Err(UserNotFound)
    else
      var user := users[username];
      if g.category.Some? && g.category.value.Id() !in categories then Err(CategoryNotFound)
      else if g.category.Some? && !Accessible(categories[g.category.value.Id()], user) then Err(AccessDenied)
      else
        var category := if g.category.Some? then Some(Loaded(categories[g.category.value.Id()])) else None;
        var achieved := if g.currentAmount >= g.targetAmount then true else g.achieved;
        var key := if g.id.Some? && g.id.value in goals then g.id.value else freshId;
        var stored := g.(id := Some(key), category := category, owner := Some(user), achieved := achieved);
        Ok(Saved(goals[key := stored], stored))
  }

  /** `updateProgress`: after the `findById` checks, sets the amount; may set `achieved`, never clears it. */
  function UpdateGoalProgress(goals: map<int, Goal>, users: map<string, UserId>, id: int, newAmount: real, username: string)
    : Result<Saved, ServiceError>
  {
    match FindGoal(goals, users, id, username)
    case Err(e) => Err(e)
    case Ok(g) =>
      var updated := g.(currentAmount := newAmount,
                        achieved := if newAmount >= g.targetAmount then true else g.achieved);
      Ok(Saved(goals[id := updated], updated))
  }

  /** `delete`: after the `findById` checks, removes the goal. */
  function DeleteGoal(goals: map<int, Goal>, users: map<string, UserId>, id: int, username: string)
    : Result<map<int, Goal>, ServiceError>
  {
    match FindGoal(goals, users, id, username)
    case Err(e) => Err(e)
    case Ok(_) => Ok(goals - {id})
  }

  // -------------------------------------------------------------- properties

  /**
   * A successful save stores the goal under its id, owned by the caller,
   * with the loaded category (global or the caller's), leaves every other
   * entry alone, and sets `achieved` when the current amount reaches the target.
   */
  lemma SaveEffect(goals: map<int, Goal>, categories: map<int, Category>, users: map<string, UserId>,
                   username: string, g: Goal, freshId: int)
    requires freshId !in goals
    ensures var r := SaveGoal(goals, categories, users, username, g, freshId);
      r.Ok? ==>
        var s := r.value.goal;
        username in users
        && s.owner == Some(users[username])
        && s.id.Some? && s.id.value in r.value.entries && r.value.entries[s.id.value] == s
        && (g.id.Some? && g.id.value in goals ==> s.id == g.id)
        && (forall k | k in r.value.entries && Some(k) != s.id :: k in goals && r.value.entries[k] == goals[k])
        && (forall k | k in goals :: k in r.value.entries)
        && (s.category.Some? <==> g.category.Some?)
        && (s.category.Some? ==>
              (s.category.value.Loaded?
               && s.category.value.category == categories[g.category.value.Id()]
               && Accessible(s.category.value.category, users[username])))
        && s.achieved == (g.achieved || g.currentAmount >= g.targetAmount)
        && s == g.(id := s.id, category := s.category, owner := Some(users[username]), achieved := s.achieved)
        && (!(g.id.Some? && g.id.value in goals) ==> s.id == Some(freshId))
  {
  }

  /** Save fails exactly for an unknown user, an unknown category, or another user's category. */
  lemma SaveErrors(goals: map<int, Goal>, categories: map<int, Category>, users: map<string, UserId>,
                   username: string, g: Goal, freshId: int)
    ensures var r := SaveGoal(goals, categories, users, username, g, freshId);
      (r == Err(UserNotFound) <==> username !in users)
      && (r == Err(CategoryNotFound) <==> username in users && g.category.Some? && g.category.value.Id() !in categories)
      && (r == Err(AccessDenied) <==> username in users && g.category.Some? && g.category.value.Id() in categories
                                       && !Accessible(categories[g.category.value.Id()], users[username]))
  {
  }

  /**
   * A goal built from a request starts with `achieved` false, so saving it
   * re-derives the flag from the amounts: this is the full-update path.
   */
  lemma SaveFromRequestRederives(goals: map<int, Goal>, categories: map<int, Category>, users: map<string, UserId>,
                                 username: string, req: GoalDto.GoalRequest, today: Date, freshId: int)
    ensures var g := GoalDto.ToEntity(req, today);
      var r := SaveGoal(goals, categories, users, username, g, freshId);
      r.Ok? ==> r.value.goal.achieved == (g.currentAmount >= g.targetAmount)
  {
  }

  /**
   * `updateProgress` changes only the goal's current amount and possibly
   * its flag; the flag is a ratchet: once achieved, always achieved.
   */
  lemma UpdateProgressRatchet(goals: map<int, Goal>, users: map<string, UserId>, id: int, newAmount: real, username: string)
    ensures var r := UpdateGoalProgress(goals, users, id, newAmount, username);
      r.Ok? ==>
        var old_ := goals[id];
        var g := r.value.goal;
        r.value.entries == goals[id := g]
        && g.currentAmount == newAmount
        && g == old_.(currentAmount := newAmount, achieved := g.achieved)
        && (old_.achieved ==> g.achieved)
        && (newAmount >= old_.targetAmount ==> g.achieved)
        && (!old_.achieved && newAmount < old_.targetAmount ==> !g.achieved)
  {
  }

  /** Lowering the amount of an achieved goal below its target leaves it achieved. */
  lemma AchievedSurvivesLowerAmount(goals: map<int, Goal>, users: map<string, UserId>, id: int, newAmount: real, username: string)
    requires id in goals && goals[id].achieved && newAmount < goals[id].targetAmount
    requires username in users && goals[id].owner == Some(users[username])
    ensures UpdateGoalProgress(goals, users, id, newAmount, username).Ok?
    ensures UpdateGoalProgress(goals, users, id, newAmount, username).value.goal.achieved
  {
  }

  /** Update and delete act only on a goal that exists and belongs to the caller; on failure nothing changes. */
  lemma MutationsGuardedByOwner(goals: map<int, Goal>, users: map<string, UserId>, id: int, newAmount: real, username: string)
    ensures UpdateGoalProgress(goals, users, id, newAmount, username).Ok?
        <==> FindGoal(goals, users, id, username).Ok?
    ensures DeleteGoal(goals, users, id, username).Ok?
        <==> FindGoal(goals, users, id, username).Ok?
    ensures DeleteGoal(goals, users, id, username).Ok? ==>
        DeleteGoal(goals, users, id, username).value == goals - {id}
        && goals[id].owner == Some(users[username])
  {
  }

  // ----------------------------------------------- saving over another's goal

  /**
   * As written, `save` never looks at the owner of the goal an incoming id
   * names: a full update (`PUT /api/goals/{id}`) with another user's goal
   * id overwrites that goal and hands it to the caller.
   */
  lemma SaveTakesOverForeignGoal(goals: map<int, Goal>, categories: map<int, Category>, users: map<string, UserId>,
                                 username: string, g: Goal, freshId: int)
    requires username in users && g.category.None?
    requires g.id.Some? && g.id.value in goals && goals[g.id.value].owner != Some(users[username])
    ensures var r := SaveGoal(goals, categories, users, username, g, freshId);
      r.Ok? && r.value.entries[g.id.value].owner == Some(users[username])
      && r.value.entries[g.id.value].owner != goals[g.id.value].owner
  {
  }

  /** A goal id names a goal stored for somebody other than `user`. */
  predicate ForeignId(goals: map<int, Goal>, id: Option<int>, user: UserId) {
    id.Some? && id.value in goals && goals[id.value].owner != Some(user)
  }

  /** `save` with the ownership check `findById` makes on every other path: a foreign id is refused. */
  function SaveGoalChecked(goals: map<int, Goal>, categories: map<int, Category>, users: map<string, UserId>,
                           username: string, g: Goal, freshId: int): Result<Saved, ServiceError>
  {
    if username !in users then Err(UserNotFound)
    else if ForeignId(goals, g.id, users[username]) then Err(AccessDenied)
    else SaveGoal(goals, categories, users, username, g, freshId)
  }

  /**
   * The checked save behaves as written except that it refuses a foreign
   * id, and so never changes a goal stored for another user.
   */
  lemma SaveCheckedKeepsForeignGoals(goals: map<int, Goal>, categories: map<int, Category>, users: map<string, UserId>,
                                     username: string, g: Goal, freshId: int)
    requires freshId !in goals
    ensures var r := SaveGoalChecked(goals, categories, users, username, g, freshId);
      (username in users && ForeignId(goals, g.id, users[username]) ==> r == Err(AccessDenied))
      && (username in users && !ForeignId(goals, g.id, users[username]) ==>
            r == SaveGoal(goals, categories, users, username, g, freshId))
      && (r.Ok? ==> forall k | k in goals && goals[k].owner != Some(users[username]) ::
                      k in r.value.entries && r.value.entries[k] == goals[k])
  {
    var r := SaveGoalChecked(goals, categories, users, username, g, freshId);
    if r.Ok? {
      SaveEffect(goals, categories, users, username, g, freshId);
    }
  }

  // ------------------------------------------------------------ the store

  /**
   * The goal repository behind `FinancialGoalService`: `goals` maps each id
   * to its stored goal, `ids` lists the ids in insertion order and `nextId`
   * is the id the next insertion receives. Categories and users are only read.
   */
  class GoalStore {
    var goals: map<int, Goal>
    var ids: seq<int>
    var nextId: int
    const categories: map<int, Category>
    const users: map<string, UserId>

    /**
     * `ids` lists exactly the stored ids, once each; every stored goal
     * carries its key as id, has an owner and, if any, a loaded category.
     */
    ghost predicate Valid()
      reads this
    {
      StoreKeys.Unique(ids)
      && (forall i | 0 <= i < |ids| :: ids[i] in goals)
      && (forall k | k in goals :: k in ids)
      && forall k | k in goals ::
           k < nextId && goals[k].id == Some(k) && goals[k].owner.Some?
           && (goals[k].category.Some? ==> goals[k].category.value.Loaded?)
    }

    /** The goal table in insertion order. */
    ghost function Rows(): seq<Goal>
      reads this
      requires Valid()
    {
      StoreKeys.Listing(goals, ids)
    }

    constructor (categories: map<int, Category>, users: map<string, UserId>)
      ensures Valid() && goals == map[] && ids == []
      ensures this.categories == categories && this.users == users
    {
      this.categories := categories;
      this.users := users;
      goals := map[];
      ids := [];
      nextId := 1;
    }

    method FindById(id: int, username: string) returns (r: Result<Goal, ServiceError>)
      ensures r == FindGoal(goals, users, id, username)
    {
      if id !in goals {
        return Err(GoalNotFound);
      }
      if username !in users {
        return Err(UserNotFound);
      }
      var goal := goals[id];
      if goal.owner != Some(users[username]) {
        return Err(AccessDenied);
      }
      return Ok(goal);
    }

    /**
     * `save`, with the ownership check on an incoming id that the as-written
     * service lacks (see `SaveTakesOverForeignGoal`); a goal inserted under
     * a new id is appended to the table.
     */
    method Save(goal: Goal, username: string) returns (r: Result<Goal, ServiceError>)
      requires Valid()
      modifies this
      ensures Valid()
      ensures var s := SaveGoalChecked(old(goals), categories, users, username, goal, old(nextId));
        match s
        case Ok(saved) =>
          r == Ok(saved.goal) && goals == saved.entries
          && ids == (if saved.goal.id.value in old(goals) then old(ids) else old(ids) + [saved.goal.id.value])
        case Err(e) => r == Err(e) && goals == old(goals) && ids == old(ids)
    {
      if username !in users {
        return Err(UserNotFound);
      }
      var user := users[username];
      if goal.id.Some? && goal.id.value in goals && goals[goal.id.value].owner != Some(user) {
        return Err(AccessDenied);
      }
      var g := goal;
      if g.category.Some? {
        var categoryId := g.category.value.Id();
        if categoryId !in categories {
          return Err(CategoryNotFound);
        }
        var category := categories[categoryId];
        if !Accessible(category, user) {
          return Err(AccessDenied);
        }
        g := g.(category := Some(Loaded(category)));
      }
      g := g.(owner := Some(user));
      if g.currentAmount >= g.targetAmount {
        g := g.(achieved := true);
      }
      var key: int;
      if g.id.Some? && g.id.value in goals {
        key := g.id.value;
      } else {
        key := nextId;
        nextId := nextId + 1;
        ids := ids + [key];
      }
      g := g.(id := Some(key));
      goals := goals[key := g];
      return Ok(g);
    }

    /** `updateProgress`. */
    method UpdateProgress(id: int, newAmount: real, username: string) returns (r: Result<Goal, ServiceError>)
      requires Valid()
      modifies this`goals
      ensures Valid()
      ensures var s := UpdateGoalProgress(old(goals), users, id, newAmount, username);
        match s
        case Ok(saved) => r == Ok(saved.goal) && goals == saved.entries
        case Err(e) => r == Err(e) && goals == old(goals)
    {
      var found := FindById(id, username);
      if found.Err? {
        return Err(found.error);
      }
      var g := found.value.(currentAmount := newAmount);
      if g.currentAmount >= g.targetAmount {
        g := g.(achieved := true);
      }
      goals := goals[id := g];
      return Ok(g);
    }

    /** `delete`. */
    method Delete(id: int, username: string) returns (r: Result<(), ServiceError>)
      requires Valid()
      modifies this`goals, this`ids
      ensures Valid()
      ensures var s := DeleteGoal(old(goals), users, id, username);
        match s
        case Ok(remaining) => r == Ok(()) && goals == remaining && ids == StoreKeys.Remove(old(ids), id)
        case Err(e) => r == Err(e) && goals == old(goals) && ids == old(ids)
    {
      var found := FindById(id, username);
      if found.Err? {
        return Err(found.error);
      }
      ghost var before := ids;
      goals := goals - {id};
      ids := StoreKeys.Remove(ids, id);
      forall i | 0 <= i < |ids|
        ensures ids[i] in goals
      {
        assert ids[i] in before;
        var j :| 0 <= j < |before| && before[j] == ids[i];
      }
      return Ok(());
    }

    /** `findAchievedGoalsByUsername`: the caller's achieved goals, in table order. */
    method FindAchievedGoalsByUsername(username: string) returns (r: Result<seq<Goal>, ServiceError>)
      requires Valid()
      ensures username !in users <==> r == Err(UserNotFound)
      ensures r.Ok? ==> r.value == AchievedGoalsOf(Rows(), users[username])
    {
      if username !in users {
        return Err(UserNotFound);
      }
      var user := users[username];
      ghost var rows := Rows();
      var found: seq<Goal> := [];
      for i := 0 to |ids|
        invariant found == AchievedGoalsOf(rows[..i], user)
      {
        var g := goals[ids[i]];
        assert rows[..i + 1][..i] == rows[..i];
        if AchievedBy(g, user) {
          found := found + [g];
        }
      }
      assert rows[..|ids|] == rows;
      return Ok(found);
    }
  }

  /** With a valid store, the achieved-goals listing holds exactly the caller's achieved stored goals. */
  lemma AchievedListingIsExact(s: GoalStore, user: UserId)
    requires s.Valid()
    ensures forall k | k in s.goals && AchievedBy(s.goals[k], user) :: s.goals[k] in AchievedGoalsOf(s.Rows(), user)
    ensures forall g | g in AchievedGoalsOf(s.Rows(), user) :: g in s.goals.Values && AchievedBy(g, user)
  {
    StoreKeys.ListingIsContents(s.goals, s.ids);
  }
}
