/**
 * `OfferService` over the offer repository: a store from id to offer, with
 * NotFound and constraint-violation outcomes.
 */
module OfferStore {
  import opened Common
  import opened Criteria
  import UserEntity

  /** The referenced entities of an offer; their fields play no part here. */
  type Category(==)
  type Bundle(==)

  /** `Offer`. */
  datatype Offer = Offer(
    id: Uuid,
    date: string,
    title: string,
    category: Option<Category>,
    bundle: Option<Bundle>,
    user: Option<UserEntity.User>)

  /** `PageRequest.of(page, size, Direction.fromString(direction), sortField)`. */
  datatype PageRequest = PageRequest(page: Int32, size: Int32, direction: string, sortField: string)

  /** What `findAll(filter, pageable)` draws its page from: the request and the offers the filter admits. */
  datatype Page = Page(pageable: PageRequest, candidates: set<Offer>)

  datatype Failure = NotFound | ConstraintViolation

  datatype Result<T> = Ok(value: T) | Err(failure: Failure)

  datatype Outcome = Done | Failed(failure: Failure)

  class OfferService {
    /** The repository's rows, by id. */
    var store: map<Uuid, Offer>
    /** Bean Validation of an offer: true when it reports no violation. */
    const isValid: Offer -> bool
    /** The per-criterion test of `OfferSpecification`. */
    const accepts: (Criterion, Offer) -> bool

    /** Every row is stored under its own id. */
    ghost predicate Valid()
      reads this
    {
      forall id :: id in store ==> store[id].id == id
    }

    constructor (rows: map<Uuid, Offer>, isValid: Offer -> bool, accepts: (Criterion, Offer) -> bool)
      requires forall id :: id in rows ==> rows[id].id == id
      ensures Valid()
      ensures store == rows && this.isValid == isValid && this.accepts == accepts
    {
      store := rows;
      this.isValid := isValid;
      this.accepts := accepts;
    }

    /** `getAll`: the filter and the page request go to the repository unchanged. */
    function GetAll(pageable: PageRequest, filter: Option<Specification>): (p: Page)
      reads this
      ensures p.pageable == pageable
      ensures forall id :: id in store ==> (store[id] in p.candidates <==> Admits(filter, store[id], accepts))
      ensures forall o :: o in p.candidates ==> o in store.Values
    {
      Page(pageable, set id | id in store && Admits(filter, store[id], accepts) :: store[id])
    }

    /** `get`: the stored offer, or NotFound. */
    function Get(id: Uuid): (r: Result<Offer>)
      reads this
      requires Valid()
      ensures r.Ok? <==> id in store
      ensures r.Ok? ==> r.value == store[id] && r.value.id == id
      ensures r.Err? ==> r.failure == NotFound
    {
      if id in store then Ok(store[id]) else Err(NotFound)
    }

    /** `add`: validation first; a valid offer is saved under its id, with no existence check. */
    method Add(offer: Offer) returns (r: Outcome)
      requires Valid()
      modifies this
      ensures Valid()
      ensures r == (if isValid(offer) then Done else Failed(ConstraintViolation))
      ensures store == (if isValid(offer) then old(store)[offer.id := offer] else old(store))
      ensures r.Done? ==> Get(offer.id) == Ok(offer)
    {
      if !isValid(offer) {
        return Failed(ConstraintViolation);
      }
      store := store[offer.id := offer];
      return Done;
    }

    /** `update`: NotFound unless the id is stored; then that entry alone is replaced, without validation. */
    method Update(offer: Offer) returns (r: Outcome)
      requires Valid()
      modifies this
      ensures Valid()
      ensures r == (if offer.id in old(store) then Done else Failed(NotFound))
      ensures store == (if offer.id in old(store) then old(store)[offer.id := offer] else old(store))
      ensures forall id :: id != offer.id ==> Get(id) == old(Get(id))
    {
      if offer.id !in store {
        return Failed(NotFound);
      }
      store := store[offer.id := offer];
      return Done;
    }

    /** `delete`: NotFound unless the id is stored; then that id alone is removed. */
    method Delete(id: Uuid) returns (r: Outcome)
      requires Valid()
      modifies this
      ensures Valid()
      ensures r == (if id in old(store) then Done else Failed(NotFound))
      ensures store == (if id in old(store) then old(store) - {id} else old(store))
      ensures Get(id) == Err(NotFound)
      ensures forall other :: other != id ==> Get(other) == old(Get(other))
    {
      if id !in store {
        return Failed(NotFound);
      }
      store := store - {id};
      return Done;
    }
  }

  /** With no filter every stored offer is a candidate; the filter can only narrow the set. */
  lemma NoFilterAdmitsAll(s: OfferService, pageable: PageRequest, filter: Option<Specification>)
    ensures s.GetAll(pageable, None).candidates == s.store.Values
    ensures s.GetAll(pageable, filter).candidates <= s.GetAll(pageable, None).candidates
  {
    var all := s.GetAll(pageable, None).candidates;
    forall o | o in s.store.Values ensures o in all {
      var id :| id in s.store && s.store[id] == o;
    }
  }
}
