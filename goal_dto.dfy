/**
 * The goal request and response records: `FinancialGoalRequest.toEntity`
 * fills a new goal with copied or defaulted values, and
 * `FinancialGoalResponse.fromEntity` copies a goal and adds its progress.
 */
module GoalDto {
  import opened Wrappers
  import opened Dates
  import opened Domain
  import opened Money

  /** A goal as submitted by a client; a missing target amount is not modelled. */
  datatype GoalRequest = GoalRequest(
    id: Option<int>,
    name: string,
    description: string,
    targetAmount: real,
    currentAmount: Option<real>,
    startDate: Option<Date>,
    endDate: Option<Date>,
    categoryId: Option<int>)

  /** `toEntity`: today's date is passed in for `LocalDate.now()`. */
  function ToEntity(req: GoalRequest, today: Date): (g: Goal)
    ensures g.id == req.id && g.name == req.name && g.description == req.description
    ensures g.targetAmount == req.targetAmount && g.endDate == req.endDate
    ensures g.currentAmount == (if req.currentAmount.Some? then req.currentAmount.value else 0.0)
    ensures g.startDate == (if req.startDate.Some? then req.startDate.value else today)
    ensures !g.achieved
    ensures g.category.Some? <==> req.categoryId.Some?
    ensures g.category.Some? ==> g.category.value == IdOnly(req.categoryId.value)
    ensures g.owner.None?
  {
    Goal(req.id, req.name, req.description, req.targetAmount,
         req.currentAmount.GetOr(0.0), req.startDate.GetOr(today), req.endDate, false,
         if req.categoryId.Some? then Some(IdOnly(req.categoryId.value)) else None,
         None)
  }

  datatype CategoryDto = CategoryDto(id: int, name: string, kind: string)

  datatype GoalResponse = GoalResponse(
    id: Option<int>,
    name: string,
    description: string,
    targetAmount: real,
    currentAmount: real,
    startDate: Date,
    endDate: Option<Date>,
    achieved: bool,
    category: Option<CategoryDto>,
    progressPercentage: real)

  /** `currentAmount * 100 / targetAmount`, two places HALF_UP, or 0 for a target that is not positive. */
  function Progress(g: Goal): real {
    Percentage(g.currentAmount, g.targetAmount)
  }

  /**
   * `fromEntity`. A category given only by id has no type, on which the
   * source would fail; goals read back from the store have loaded categories.
   */
  function FromEntity(g: Goal): (r: GoalResponse)
    requires g.category.Some? ==> g.category.value.Loaded?
    ensures r.id == g.id && r.name == g.name && r.description == g.description
    ensures r.targetAmount == g.targetAmount && r.currentAmount == g.currentAmount
    ensures r.startDate == g.startDate && r.endDate == g.endDate && r.achieved == g.achieved
    ensures r.category.Some? <==> g.category.Some?
    ensures g.category.Some? ==>
              var c := g.category.value.category;
              r.category.value == CategoryDto(c.id, c.name, KindName(c.kind))
    ensures g.targetAmount <= 0.0 ==> r.progressPercentage == 0.0
    ensures IsCents(r.progressPercentage)
    ensures g.targetAmount > 0.0 ==> -0.005 <= r.progressPercentage - g.currentAmount * 100.0 / g.targetAmount <= 0.005
  {
    GoalResponse(g.id, g.name, g.description, g.targetAmount, g.currentAmount,
                 g.startDate, g.endDate, g.achieved,
                 if g.category.Some? then
                   var c := g.category.value.category;
                   Some(CategoryDto(c.id, c.name, KindName(c.kind)))
                 else None,
                 Progress(g))
  }

  /** Progress of a goal between nothing saved and its target lies in [0, 100]; at the target it is 100. */
  lemma ProgressBounds(g: Goal)
    requires g.targetAmount > 0.0 && 0.0 <= g.currentAmount <= g.targetAmount
    ensures 0.0 <= Progress(g) <= 100.0
    ensures g.currentAmount == g.targetAmount ==> Progress(g) == 100.0
  {
    PercentageBounds(g.currentAmount, g.targetAmount);
    if g.currentAmount == g.targetAmount {
      PercentageOfWhole(g.targetAmount);
    }
  }

  /** A goal whose current amount reaches its positive target shows at least 100 percent. */
  lemma ReachedShowsFull(g: Goal)
    requires g.targetAmount > 0.0 && g.currentAmount >= g.targetAmount
    ensures Progress(g) >= 100.0
  {
    var q := g.currentAmount * 100.0 / g.targetAmount;
    assert q >= 100.0 by {
      assert g.currentAmount * 100.0 >= g.targetAmount * 100.0;
    }
    Round2Monotone(100.0, q);
    Round2Cents(10000);
  }

  /** Target 1000.00 with 1000.00 saved is 100.00 percent; with 500.00 saved, 50.00 percent. */
  lemma ProgressExamples(g: Goal)
    requires g.targetAmount == 1000.0
    ensures g.currentAmount == 1000.0 ==> Progress(g) == 100.0
    ensures g.currentAmount == 500.0 ==> Progress(g) == 50.0
  {
    if g.currentAmount == 1000.0 {
      PercentageOfWhole(1000.0);
    }
    if g.currentAmount == 500.0 {
      assert 500.0 * 100.0 / 1000.0 == 50.0;
      Round2Cents(5000);
    }
  }
}
