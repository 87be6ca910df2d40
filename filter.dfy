/** Project filtering (js/main.js, section 6): a click on a filter button
    makes it the only active button, hides the cards of other categories at
    once, and schedules each matching card to be shown after a stagger of
    50 units per position. */
module ProjectFilter {

  const Wildcard := "all"
  const StaggerDelay := 50
  const ShowAnimation := "fadeInUp 0.5s ease-out"

  /** A filter button: its `data-filter` value and its `active` class. */
  datatype FilterButton = FilterButton(filter: string, active: bool)

  /** A project card: its `data-category`, its `hidden` class and its
      inline animation style. */
  datatype Card = Card(category: string, hidden: bool, animation: string)

  /** A scheduled show step: which card, after what delay. */
  datatype ShowTask = ShowTask(card: nat, delay: nat)

  /** The card matches the filter. */
  predicate Shows(filter: string, category: string)
  {
    filter == Wildcard || category == filter
  }

  /** The buttons after a click on button b. */
  function ButtonsAfterClick(buttons: seq<FilterButton>, b: nat): (r: seq<FilterButton>)
    requires b < |buttons|
    ensures |r| == |buttons|
    ensures forall j :: 0 <= j < |r| ==> r[j].filter == buttons[j].filter
    ensures forall j :: 0 <= j < |r| ==> (r[j].active <==> j == b)
  {
    seq(|buttons|, j requires 0 <= j < |buttons| => buttons[j].(active := j == b))
  }

  /** The cards right after the click: non-matching cards become hidden,
      matching ones wait for their show step. */
  function CardsAfterClick(cards: seq<Card>, filter: string): (r: seq<Card>)
    ensures |r| == |cards|
    ensures forall k :: 0 <= k < |r| ==> r[k].category == cards[k].category
    ensures forall k :: 0 <= k < |r| && Shows(filter, cards[k].category) ==> r[k] == cards[k]
    ensures forall k :: 0 <= k < |r| && !Shows(filter, cards[k].category) ==> r[k] == cards[k].(hidden := true)
  {
    seq(|cards|, k requires 0 <= k < |cards| =>
      if Shows(filter, cards[k].category) then cards[k] else cards[k].(hidden := true))
  }

  /** A single card right after the click. */
  function HideUnless(card: Card, filter: string): Card
  {
    if Shows(filter, card.category) then card else card.(hidden := true)
  }

  /** Cards that agree with `HideUnless` position by position are the
      cards after the click. */
  lemma CardsAfterClickIs(cards: seq<Card>, filter: string, r: seq<Card>)
    requires |r| == |cards|
    requires forall k :: 0 <= k < |r| ==> r[k] == HideUnless(cards[k], filter)
    ensures r == CardsAfterClick(cards, filter)
  {
  }

  /** The show steps scheduled for cards from position `from` on, in
      document order. */
  function ShowTasksFrom(cards: seq<Card>, filter: string, from: nat): seq<ShowTask>
    requires from <= |cards|
    decreases |cards| - from
  {
    if from == |cards| then []
    else if Shows(filter, cards[from].category) then [ShowTask(from, from * StaggerDelay)] + ShowTasksFrom(cards, filter, from + 1)
    else ShowTasksFrom(cards, filter, from + 1)
  }

  /** The steps from position `from` on: only matching cards from there,
      every one of them, in document order, the card at k after k * 50. */
  lemma {:induction false} ShowTasksFromSpec(cards: seq<Card>, filter: string, from: nat)
    requires from <= |cards|
    ensures forall t :: t in ShowTasksFrom(cards, filter, from) ==> from <= t.card < |cards| && Shows(filter, cards[t.card].category)
    ensures forall t :: t in ShowTasksFrom(cards, filter, from) ==> t.delay == t.card * StaggerDelay
    ensures forall k :: from <= k < |cards| && Shows(filter, cards[k].category) ==> ShowTask(k, k * StaggerDelay) in ShowTasksFrom(cards, filter, from)
    ensures forall a, b :: 0 <= a < b < |ShowTasksFrom(cards, filter, from)| ==>
      ShowTasksFrom(cards, filter, from)[a].card < ShowTasksFrom(cards, filter, from)[b].card
    decreases |cards| - from
  {
    if from < |cards| {
      ShowTasksFromSpec(cards, filter, from + 1);
    }
  }

  /** The scheduling loop's step at position `from`. */
  lemma ShowTasksFromStep(cards: seq<Card>, filter: string, from: nat)
    requires from < |cards|
    ensures ShowTasksFrom(cards, filter, from)
         == (if Shows(filter, cards[from].category) then [ShowTask(from, from * StaggerDelay)] else [])
            + ShowTasksFrom(cards, filter, from + 1)
  {
  }

  /** The show steps one click schedules: one per matching card, in order,
      the card at position k after k * 50. */
  function ShowTasks(cards: seq<Card>, filter: string): (tasks: seq<ShowTask>)
    ensures forall t :: t in tasks ==> t.card < |cards| && Shows(filter, cards[t.card].category)
    ensures forall t :: t in tasks ==> t.delay == t.card * StaggerDelay
    ensures forall k :: 0 <= k < |cards| && Shows(filter, cards[k].category) ==> ShowTask(k, k * StaggerDelay) in tasks
    ensures forall a, b :: 0 <= a < b < |tasks| ==> tasks[a].card < tasks[b].card
  {
    ShowTasksFromSpec(cards, filter, 0);
    ShowTasksFrom(cards, filter, 0)
  }

  /** Some pending step targets card k. */
  predicate Scheduled(tasks: seq<ShowTask>, k: nat)
  {
    exists t :: t in tasks && t.card == k
  }

  /** Every pending step names an existing card. */
  predicate TasksInRange(tasks: seq<ShowTask>, n: nat)
  {
    forall t :: t in tasks ==> t.card < n
  }

  /** One show step: the card loses `hidden` and gets the entrance animation. */
  function ShowCard(cards: seq<Card>, k: nat): (r: seq<Card>)
    requires k < |cards|
  {
    cards[k := cards[k].(hidden := false, animation := ShowAnimation)]
  }

  /** The cards once the given show steps have run, in order. */
  function ApplyShows(cards: seq<Card>, tasks: seq<ShowTask>): (r: seq<Card>)
    requires TasksInRange(tasks, |cards|)
    ensures |r| == |cards|
    ensures forall k :: 0 <= k < |r| ==> r[k].category == cards[k].category
    ensures forall k :: 0 <= k < |r| ==> (r[k].hidden <==> cards[k].hidden && !Scheduled(tasks, k))
    ensures forall k :: 0 <= k < |r| && Scheduled(tasks, k) ==> r[k].animation == ShowAnimation
    ensures forall k :: 0 <= k < |r| && !Scheduled(tasks, k) ==> r[k] == cards[k]
    decreases |tasks|
  {
    if tasks == [] then cards
    else
      assert forall t :: t in tasks[1..] ==> t in tasks;
      var r := ApplyShows(ShowCard(cards, tasks[0].card), tasks[1..]);
      assert forall k :: Scheduled(tasks, k) <==> k == tasks[0].card || Scheduled(tasks[1..], k) by {
        forall k ensures Scheduled(tasks, k) ==> k == tasks[0].card || Scheduled(tasks[1..], k) {
          if Scheduled(tasks, k) {
            var t :| t in tasks && t.card == k;
            if t != tasks[0] {
              assert t in tasks[1..];
            }
          }
        }
      }
      r
  }

  /** Once every step scheduled by a click has run (and none was pending
      before), a card is visible exactly when it matches the filter. */
  lemma FilterSettles(cards: seq<Card>, filter: string)
    ensures |ApplyShows(CardsAfterClick(cards, filter), ShowTasks(cards, filter))| == |cards|
    ensures forall k :: 0 <= k < |cards| ==>
      (ApplyShows(CardsAfterClick(cards, filter), ShowTasks(cards, filter))[k].hidden <==> !Shows(filter, cards[k].category))
  {
    var tasks := ShowTasks(cards, filter);
    var after := CardsAfterClick(cards, filter);
    forall k | 0 <= k < |cards|
      ensures Scheduled(tasks, k) <==> Shows(filter, cards[k].category)
    {
      if Shows(filter, cards[k].category) {
        assert ShowTask(k, k * StaggerDelay) in tasks;
      }
    }
  }

  /** The wildcard eventually shows every card. */
  lemma WildcardShowsAll(cards: seq<Card>)
    ensures forall k :: 0 <= k < |cards| ==>
      !ApplyShows(CardsAfterClick(cards, Wildcard), ShowTasks(cards, Wildcard))[k].hidden
  {
    FilterSettles(cards, Wildcard);
  }

  /** The filter buttons, the cards, and the show steps still waiting for
      their timers. */
  class FilterController {
    var buttons: seq<FilterButton>
    var cards: seq<Card>
    var pending: seq<ShowTask>

    ghost predicate Valid()
      reads this
    {
      TasksInRange(pending, |cards|)
    }

    constructor (buttons: seq<FilterButton>, cards: seq<Card>)
      ensures Valid()
      ensures this.buttons == buttons && this.cards == cards && pending == []
    {
      this.buttons := buttons;
      this.cards := cards;
      pending := [];
    }

    /** The click listener of button b. Show steps are queued behind any
        still pending from earlier clicks. */
    method Click(b: nat)
      requires Valid() && b < |buttons|
      modifies this
      ensures Valid()
      ensures buttons == ButtonsAfterClick(old(buttons), b)
      ensures cards == CardsAfterClick(old(cards), old(buttons)[b].filter)
      ensures pending == old(pending) + ShowTasks(old(cards), old(buttons)[b].filter)
    {
      var filter := buttons[b].filter;
      ActivateOnly(b);
      var scheduled := FilterCards(filter);
      pending := pending + scheduled;
    }

    /** Clear `active` on every button, then set it on button b. */
    method ActivateOnly(b: nat)
      requires b < |buttons|
      modifies this`buttons
      ensures buttons == ButtonsAfterClick(old(buttons), b)
    {
      var j := 0;
      while j < |buttons|
        invariant 0 <= j <= |buttons| && |buttons| == |old(buttons)|
        invariant forall i :: 0 <= i < j ==> buttons[i] == old(buttons)[i].(active := false)
        invariant forall i :: j <= i < |buttons| ==> buttons[i] == old(buttons)[i]
      {
        buttons := buttons[j := buttons[j].(active := false)];
        j := j + 1;
      }
      buttons := buttons[b := buttons[b].(active := true)];
    }

    /** The loop over the cards: hide the others now, return the show steps
        handed to `setTimeout`. */
    method FilterCards(filter: string) returns (scheduled: seq<ShowTask>)
      modifies this`cards
      ensures cards == CardsAfterClick(old(cards), filter)
      ensures scheduled == ShowTasks(old(cards), filter)
    {
      ghost var before := cards;
      ghost var target := ShowTasks(before, filter);
      scheduled := [];
      var index := 0;
      while index < |cards|
        invariant 0 <= index <= |cards| && |cards| == |before|
        invariant forall k :: 0 <= k < index ==> cards[k] == HideUnless(before[k], filter)
        invariant forall k :: index <= k < |cards| ==> cards[k] == before[k]
        invariant scheduled + ShowTasksFrom(before, filter, index) == target
      {
        ShowTasksFromStep(before, filter, index);
        var category := cards[index].category;
        if filter == Wildcard || category == filter {
          scheduled := scheduled + [ShowTask(index, index * StaggerDelay)];
        } else {
          cards := cards[index := cards[index].(hidden := true)];
        }
        index := index + 1;
      }
      assert scheduled == target;
      CardsAfterClickIs(before, filter, cards);
    }

    /** Every pending timer fires. */
    method RunPending()
      requires Valid()
      modifies this
      ensures Valid()
      ensures cards == ApplyShows(old(cards), old(pending))
      ensures buttons == old(buttons) && pending == []
    {
      var i := 0;
      while i < |pending|
        invariant 0 <= i <= |pending| && |cards| == |old(cards)|
        invariant TasksInRange(pending, |cards|)
        invariant ApplyShows(cards, pending[i..]) == ApplyShows(old(cards), pending)
        invariant buttons == old(buttons) && pending == old(pending)
      {
        var k := pending[i].card;
        cards := cards[k := cards[k].(hidden := false, animation := ShowAnimation)];
        assert pending[i..][1..] == pending[i + 1..];
        i := i + 1;
      }
      assert pending[|pending|..] == [];
      pending := [];
    }
  }
}
