/** The order timeline (src/components/orders/OrderTimeline.tsx): the position of the
    order's status on the four-step track, which steps are complete and current, and when
    the tracking number is shown. Dates and the progress bar's width are not modelled. */
module OrderTimeline {
  import opened Wrappers
  import opened Types

  datatype Step = Step(status: OrderStatus, caption: string)

  const Steps: seq<Step> := [
    Step(Pending, "Order Placed"), Step(Confirmed, "Confirmed"),
    Step(Shipped, "Shipped"), Step(Delivered, "Delivered")
  ]

  /** The `statusIndex` table: the four steps in order, a cancelled order at -1. */
  function StatusIndex(s: OrderStatus): (r: int)
    ensures -1 <= r < |Steps|
    ensures r == -1 <==> s == Cancelled
    ensures r >= 0 ==> Steps[r].status == s
  {
    match s
    case Pending => 0
    case Confirmed => 1
    case Shipped => 2
    case Delivered => 3
    case Cancelled => -1
  }

  datatype StepView = StepView(complete: bool, current: bool)

  datatype Timeline =
    | CancelledView
    | Track(steps: seq<StepView>, tracking: Option<string>)

  /** The tracking box needs a non-empty tracking number and a shipped or delivered order. */
  function TrackingShown(o: Order): (r: Option<string>)
    ensures r.Some? <==> o.trackingNumber.Some? && o.trackingNumber.value != "" && (o.status == Shipped || o.status == Delivered)
    ensures r.Some? ==> r == o.trackingNumber
  {
    if o.trackingNumber.Some? && o.trackingNumber.value != "" && StatusIndex(o.status) >= 2
    then o.trackingNumber else None
  }

  function StepAt(current: int, i: int): StepView {
    StepView(i <= current, i == current)
  }

  function Render(o: Order): (t: Timeline)
    ensures t.CancelledView? <==> o.status == Cancelled
    ensures t.Track? ==> |t.steps| == |Steps| && t.tracking == TrackingShown(o)
    ensures t.Track? ==> forall i :: 0 <= i < |Steps| ==>
      t.steps[i] == StepView(i <= StatusIndex(o.status), i == StatusIndex(o.status))
  {
    var current := StatusIndex(o.status);
    if o.status == Cancelled then CancelledView
    else Track(seq(|Steps|, i => StepAt(current, i)), TrackingShown(o))
  }

  /** The completed steps are a prefix of the track: every step before a complete one is
      complete, and the step at the status's position is the last complete one. */
  lemma CompletedPrefix(o: Order, i: int, j: int)
    requires Render(o).Track? && 0 <= i <= j < |Steps|
    ensures Render(o).steps[j].complete ==> Render(o).steps[i].complete
    ensures Render(o).steps[i].complete <==> i <= StatusIndex(o.status)
  {
  }

  /** A track shows exactly one current step, and it is the order's own status. */
  lemma ExactlyOneCurrent(o: Order)
    requires o.status != Cancelled
    ensures var t := Render(o);
      exists k :: 0 <= k < |Steps| && t.steps[k].current && Steps[k].status == o.status &&
        forall i :: 0 <= i < |Steps| && t.steps[i].current ==> i == k
  {
    var k := StatusIndex(o.status);
    assert Render(o).steps[k].current;
  }

  /** Advancing an order never removes a completed step. */
  lemma ProgressMonotone(o: Order, later: OrderStatus)
    requires o.status != Cancelled && later != Cancelled
    requires StatusIndex(o.status) <= StatusIndex(later)
    ensures forall i :: 0 <= i < |Steps| && Render(o).steps[i].complete ==>
      Render(o.(status := later)).steps[i].complete
  {
  }
}
