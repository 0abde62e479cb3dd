/**
 * The counter of old_public/blog/2022/09/05/section0.js: a store with one
 * field, `count`, behind a Proxy whose `set` trap writes and re-renders only
 * when the new value differs from the old one. The input element is modelled
 * by the ghost field `shown`, and the renders and clicks are counted.
 */
module CounterWidget {

  class Counter {
    var count: int
    /** `input.value`. */
    ghost var shown: int
    ghost var renders: nat
    ghost var clicks: nat

    /** After each render the input shows the count, and the count is the number of clicks so far. */
    ghost predicate Valid()
      reads this
    {
      shown == count && count == clicks
    }

    /** `_state = {count: 0}` followed by the initial `render(state)` (section0.js:6-8, 29). */
    constructor ()
      ensures Valid() && count == 0 && clicks == 0 && renders == 1
    {
      count := 0;
      clicks := 0;
      renders := 0;
      shown := 0;
      new;
      Render();
    }

    /** `render` (section0.js:21-23). */
    method Render()
      modifies this
      ensures shown == count && renders == old(renders) + 1
      ensures count == old(count) && clicks == old(clicks)
    {
      shown := count;
      renders := renders + 1;
    }

    /** The `set` trap for `count` (section0.js:10-17): an equal value changes nothing and renders nothing. */
    method Set(value: int)
      modifies this
      ensures count == value && clicks == old(clicks)
      ensures old(count) != value ==> shown == value && renders == old(renders) + 1
      ensures old(count) == value ==> shown == old(shown) && renders == old(renders)
    {
      if count != value {
        count := value;
        Render();
      }
    }

    /** The click handler `state.count += 1` (section0.js:25-27): one more, shown at once. */
    method Click()
      requires Valid()
      modifies this
      ensures Valid()
      ensures count == old(count) + 1 && count > old(count)
      ensures clicks == old(clicks) + 1 && renders == old(renders) + 1
    {
      clicks := clicks + 1;
      Set(count + 1);
    }
  }
}
