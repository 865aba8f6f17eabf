/**
 * The gift batch view: the batch's id, name, donation amount and gifts, and a
 * totals map from counter name to count, with count getters and three
 * "counter is greater than zero" predicates over it.
 */
module GeGiftBatch {
  import opened Wrappers

  const Processed := "PROCESSED"
  const Failed := "FAILED"
  const FailedPayment := "FAILED_PAYMENT"
  const ExpiredPayment := "EXPIRED_PAYMENT"
  const AuthorizedPayment := "AUTHORIZED_PAYMENT"
  const Total := "TOTAL"
  const Processing := "PROCESSING"

  /** A currency amount, carried through unread. */
  datatype Amount = Amount(text: string)

  /** A gift of the batch, carried through unread. */
  datatype Gift = Gift(fields: map<string, string>)

  /** The view model returned for a batch id. Its gift list may be `null`. */
  datatype GiftBatchView = GiftBatchView(
    giftBatchId: string,
    name: string,
    totalDonationsAmount: Amount,
    totals: map<string, int>,
    gifts: Option<seq<Gift>>)

  /** The snapshot record that `state()` builds. */
  datatype GiftBatchState = GiftBatchState(
    id: Option<string>,
    name: Option<string>,
    totalDonationsAmount: Option<Amount>,
    gifts: seq<Gift>,
    processedGiftsCount: Option<int>,
    failedGiftsCount: Option<int>,
    failedPaymentsCount: Option<int>,
    expiredPaymentsCount: Option<int>,
    authorizedPaymentsCount: Option<int>,
    totalGiftsCount: Option<int>,
    hasValuesGreaterThanZero: bool,
    hasPaymentsWithExpiredAuthorizations: bool,
    isProcessingGifts: bool)

  /** Reading `totals.KEY`: the raw entry, or `undefined` when the key is absent. */
  function Count(totals: map<string, int>, key: string): (r: Option<int>)
    ensures r.Some? <==> key in totals
    ensures r.Some? ==> r.value == totals[key]
  {
    if key in totals then Some(totals[key]) else None
  }

  /** `Number(count) > 0`: `Number(undefined)` is `NaN`, which is not greater than zero. */
  predicate ExceedsZero(count: Option<int>)
    ensures count.None? ==> !ExceedsZero(count)
    ensures count.Some? ==> (ExceedsZero(count) <==> count.value > 0)
  {
    count.Some? && count.value > 0
  }

  class GiftBatch {
    var id: Option<string>
    var name: Option<string>
    var totalDonationsAmount: Option<Amount>
    var totals: map<string, int>
    var gifts: seq<Gift>

    /** A new batch: nothing known, `_totals = {}`, `_gifts = []`. */
    constructor()
      ensures id == None && name == None && totalDonationsAmount == None
      ensures totals == map[] && gifts == []
    {
      id := None;
      name := None;
      totalDonationsAmount := None;
      totals := map[];
      gifts := [];
    }

    /** `init(dataImportBatchId)` once the view model for that id has been
        fetched; `viewModel` is what the fetch returned. A view model without a
        gift list makes `viewModel.gifts.forEach` throw after id, name, amount
        and totals have already been overwritten. */
    method Init(dataImportBatchId: string, viewModel: Option<GiftBatchView>) returns (r: Result<GiftBatchState>)
      modifies this
      ensures viewModel.None? ==>
        && id == Some(dataImportBatchId)
        && name == old(name) && totalDonationsAmount == old(totalDonationsAmount)
        && totals == old(totals) && gifts == old(gifts)
      ensures viewModel.Some? ==>
        && id == Some(viewModel.value.giftBatchId)
        && name == Some(viewModel.value.name)
        && totalDonationsAmount == Some(viewModel.value.totalDonationsAmount)
        && totals == viewModel.value.totals
      ensures viewModel.Some? && viewModel.value.gifts.Some? ==>
        gifts == old(gifts) + viewModel.value.gifts.value
      ensures viewModel.Some? && viewModel.value.gifts.None? ==>
        gifts == old(gifts) && r == Failure(TypeError)
      ensures r.Failure? <==> viewModel.Some? && viewModel.value.gifts.None?
      ensures r.Ok? ==> r.value == State()
    {
      id := Some(dataImportBatchId);
      if viewModel.Some? {
        var vm := viewModel.value;
        id := Some(vm.giftBatchId);
        name := Some(vm.name);
        totalDonationsAmount := Some(vm.totalDonationsAmount);
        totals := vm.totals;
        if vm.gifts.None? {
          return Failure(TypeError);
        }
        var viewGifts := vm.gifts.value;
        var i := 0;
        while i < |viewGifts|
          invariant 0 <= i <= |viewGifts|
          invariant gifts == old(gifts) + viewGifts[..i]
          invariant id == Some(vm.giftBatchId) && name == Some(vm.name)
          invariant totalDonationsAmount == Some(vm.totalDonationsAmount) && totals == vm.totals
        {
          gifts := gifts + [viewGifts[i]];
          i := i + 1;
        }
        assert viewGifts[..i] == viewGifts;
      }
      r := Ok(State());
    }

    function Id(): (r: Option<string>)
      reads this
      ensures r == id
    {
      id
    }

    function ProcessedGiftsCount(): (r: Option<int>)
      reads this
      ensures r.Some? <==> Processed in totals
      ensures r.Some? ==> r.value == totals[Processed]
    {
      Count(totals, Processed)
    }

    function FailedGiftsCount(): (r: Option<int>)
      reads this
      ensures r.Some? <==> Failed in totals
      ensures r.Some? ==> r.value == totals[Failed]
    {
      Count(totals, Failed)
    }

    function FailedPaymentsCount(): (r: Option<int>)
      reads this
      ensures r.Some? <==> FailedPayment in totals
      ensures r.Some? ==> r.value == totals[FailedPayment]
    {
      Count(totals, FailedPayment)
    }

    function ExpiredPaymentsCount(): (r: Option<int>)
      reads this
      ensures r.Some? <==> ExpiredPayment in totals
      ensures r.Some? ==> r.value == totals[ExpiredPayment]
    {
      Count(totals, ExpiredPayment)
    }

    function AuthorizedPaymentsCount(): (r: Option<int>)
      reads this
      ensures r.Some? <==> AuthorizedPayment in totals
      ensures r.Some? ==> r.value == totals[AuthorizedPayment]
    {
      Count(totals, AuthorizedPayment)
    }

    function TotalGiftsCount(): (r: Option<int>)
      reads this
      ensures r.Some? <==> Total in totals
      ensures r.Some? ==> r.value == totals[Total]
    {
      Count(totals, Total)
    }

    /** Some gift of the batch was processed or failed. */
    predicate HasValuesGreaterThanZero()
      reads this
      ensures HasValuesGreaterThanZero() <==>
        (Processed in totals && totals[Processed] > 0) || (Failed in totals && totals[Failed] > 0)
    {
      ExceedsZero(Count(totals, Processed)) || ExceedsZero(Count(totals, Failed))
    }

    predicate HasPaymentsWithExpiredAuthorizations()
      reads this
      ensures HasPaymentsWithExpiredAuthorizations() <==>
        ExpiredPayment in totals && totals[ExpiredPayment] > 0
    {
      ExceedsZero(Count(totals, ExpiredPayment))
    }

    predicate IsProcessingGifts()
      reads this
      ensures IsProcessingGifts() <==> Processing in totals && totals[Processing] > 0
    {
      ExceedsZero(Count(totals, Processing))
    }

    /** `state()`: a snapshot of the fields and of every getter and predicate. */
    function State(): (r: GiftBatchState)
      reads this
      ensures r.id == id && r.name == name && r.totalDonationsAmount == totalDonationsAmount
      ensures r.gifts == gifts
      ensures r.processedGiftsCount == ProcessedGiftsCount()
      ensures r.failedGiftsCount == FailedGiftsCount()
      ensures r.failedPaymentsCount == FailedPaymentsCount()
      ensures r.expiredPaymentsCount == ExpiredPaymentsCount()
      ensures r.authorizedPaymentsCount == AuthorizedPaymentsCount()
      ensures r.totalGiftsCount == TotalGiftsCount()
      ensures r.hasValuesGreaterThanZero == HasValuesGreaterThanZero()
      ensures r.hasPaymentsWithExpiredAuthorizations == HasPaymentsWithExpiredAuthorizations()
      ensures r.isProcessingGifts == IsProcessingGifts()
    {
      GiftBatchState(
        id, name, totalDonationsAmount, gifts,
        ProcessedGiftsCount(), FailedGiftsCount(), FailedPaymentsCount(),
        ExpiredPaymentsCount(), AuthorizedPaymentsCount(), TotalGiftsCount(),
        HasValuesGreaterThanZero(), HasPaymentsWithExpiredAuthorizations(), IsProcessingGifts())
    }
  }

  /** With empty totals every count is absent and every predicate is false. */
  lemma EmptyTotalsSnapshot(b: GiftBatch)
    requires b.totals == map[]
    ensures var s := b.State();
      && s.processedGiftsCount.None? && s.failedGiftsCount.None? && s.failedPaymentsCount.None?
      && s.expiredPaymentsCount.None? && s.authorizedPaymentsCount.None? && s.totalGiftsCount.None?
      && !s.hasValuesGreaterThanZero && !s.hasPaymentsWithExpiredAuthorizations && !s.isProcessingGifts
  {
  }

  /** A new batch initialised twice keeps the gifts of both view models, in order,
      and reports the id, name, amount and totals of the second; the first failing
      `init` rejects and the second is not run. */
  method InitTwice(first: GiftBatchView, second: GiftBatchView) returns (r: Result<GiftBatchState>)
    ensures r.Ok? <==> first.gifts.Some? && second.gifts.Some?
    ensures r.Ok? ==>
      var s := r.value;
      && s.id == Some(second.giftBatchId) && s.name == Some(second.name)
      && s.totalDonationsAmount == Some(second.totalDonationsAmount)
      && s.gifts == first.gifts.value + second.gifts.value
      && s.processedGiftsCount == Count(second.totals, Processed)
      && s.failedGiftsCount == Count(second.totals, Failed)
      && s.failedPaymentsCount == Count(second.totals, FailedPayment)
      && s.expiredPaymentsCount == Count(second.totals, ExpiredPayment)
      && s.authorizedPaymentsCount == Count(second.totals, AuthorizedPayment)
      && s.totalGiftsCount == Count(second.totals, Total)
      && (s.hasValuesGreaterThanZero <==>
            ExceedsZero(Count(second.totals, Processed)) || ExceedsZero(Count(second.totals, Failed)))
      && (s.hasPaymentsWithExpiredAuthorizations <==> ExceedsZero(Count(second.totals, ExpiredPayment)))
      && (s.isProcessingGifts <==> ExceedsZero(Count(second.totals, Processing)))
  {
    var batch := new GiftBatch();
    r := batch.Init(first.giftBatchId, Some(first));
    if r.Failure? {
      return;
    }
    r := batch.Init(second.giftBatchId, Some(second));
  }

  /** A view model without a gift list: `init` rejects, but the batch already
      carries the view model's id, name, amount and totals, and still has no gifts. */
  method InitWithoutGiftList(dataImportBatchId: string, viewModel: GiftBatchView) returns (r: Result<GiftBatchState>, after: GiftBatchState)
    requires viewModel.gifts.None?
    ensures r.Failure?
    ensures after.id == Some(viewModel.giftBatchId) && after.name == Some(viewModel.name)
    ensures after.gifts == []
    ensures after.totalDonationsAmount == Some(viewModel.totalDonationsAmount)
    ensures after.processedGiftsCount == Count(viewModel.totals, Processed)
    ensures after.failedGiftsCount == Count(viewModel.totals, Failed)
    ensures after.failedPaymentsCount == Count(viewModel.totals, FailedPayment)
    ensures after.expiredPaymentsCount == Count(viewModel.totals, ExpiredPayment)
    ensures after.authorizedPaymentsCount == Count(viewModel.totals, AuthorizedPayment)
    ensures after.totalGiftsCount == Count(viewModel.totals, Total)
    ensures after.hasValuesGreaterThanZero <==>
      ExceedsZero(Count(viewModel.totals, Processed)) || ExceedsZero(Count(viewModel.totals, Failed))
    ensures after.hasPaymentsWithExpiredAuthorizations <==> ExceedsZero(Count(viewModel.totals, ExpiredPayment))
    ensures after.isProcessingGifts <==> ExceedsZero(Count(viewModel.totals, Processing))
  {
    var batch := new GiftBatch();
    r := batch.Init(dataImportBatchId, Some(viewModel));
    after := batch.State();
  }

  /** A batch whose view model could not be fetched has the id it was asked for and
      nothing else: no name, amount or gifts, every count absent, every predicate false. */
  method InitWithoutView(dataImportBatchId: string) returns (r: Result<GiftBatchState>)
    ensures r.Ok?
    ensures r.value.id == Some(dataImportBatchId) && r.value.name == None && r.value.gifts == []
    ensures !r.value.hasValuesGreaterThanZero && !r.value.hasPaymentsWithExpiredAuthorizations
    ensures !r.value.isProcessingGifts
    ensures r.value.totalDonationsAmount == None
    ensures r.value.processedGiftsCount == None && r.value.failedGiftsCount == None
    ensures r.value.failedPaymentsCount == None && r.value.expiredPaymentsCount == None
    ensures r.value.authorizedPaymentsCount == None && r.value.totalGiftsCount == None
  {
    var batch := new GiftBatch();
    r := batch.Init(dataImportBatchId, None);
  }
}
