/**
 * `ChancesService.findAll` (backend/src/modules/chance/chance.service.ts):
 * the page window it asks the repository for.
 */
module ChanceService {
  import opened Wrappers

  const DEFAULT_TAKE := 20

  /** The options passed to `chanceRepo.find`: always ordered by `id` ascending. */
  datatype FindOptions = FindOptions(orderBy: (string, string), take: int, skip: int)

  /** `limit || 20`: an absent or zero limit takes 20. */
  function Take(limit: Option<int>): (t: int)
    ensures limit.Some? && limit.value != 0 ==> t == limit.value
    ensures limit.None? || limit.value == 0 ==> t == DEFAULT_TAKE
  {
    if limit.Some? && limit.value != 0 then limit.value else DEFAULT_TAKE
  }

  /** `findAll(page, limit)`: pages are numbered from 1; an absent or non-positive page reads from the start. */
  function FindAll(page: Option<int>, limit: Option<int>): (o: FindOptions)
    ensures o.orderBy == ("id", "ASC")
    ensures o.take == Take(limit)
    ensures page.Some? && page.value > 0 ==> o.skip == (page.value - 1) * o.take
    ensures page.None? || page.value <= 0 ==> o.skip == 0
  {
    var take := Take(limit);
    var skip := if page.Some? && page.value > 0 then (page.value - 1) * take else 0;
    FindOptions(("id", "ASC"), take, skip)
  }

  /**
   * The first page starts at 0 for every limit, and each following page
   * starts where the previous one ended, so positive pages tile the table
   * in `id` order.
   */
  lemma PagesAreConsecutive(page: int, limit: Option<int>)
    requires page >= 1
    ensures FindAll(Some(1), limit).skip == 0
    ensures FindAll(Some(page + 1), limit).skip == FindAll(Some(page), limit).skip + FindAll(Some(page), limit).take
  {
    var t := Take(limit);
    assert page * t == (page - 1) * t + t;
  }

  /** With a positive limit, distinct positive pages read disjoint windows. */
  lemma PagesDisjoint(p1: int, p2: int, limit: Option<int>)
    requires 1 <= p1 < p2
    requires Take(limit) > 0
    ensures FindAll(Some(p1), limit).skip + FindAll(Some(p1), limit).take <= FindAll(Some(p2), limit).skip
  {
    var t := Take(limit);
    var k := p2 - p1;
    assert (p2 - 1) * t == (p1 - 1) * t + k * t by {
      assert p2 - 1 == (p1 - 1) + k;
    }
    assert k * t == t + (k - 1) * t;
    assert (k - 1) * t >= 0;
  }
}
