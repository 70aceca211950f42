/** The values of event list items: the order of the lists of waiting tasks, and the mark of an event
    group's own data. */
module EventValues {

  /** Event lists are in ascending order of this value, so in descending order of priority. */
  function EventValue(levels: nat, priority: nat): nat {
    if priority <= levels then levels - priority else 0
  }

  /** `taskEVENT_LIST_ITEM_VALUE_IN_USE`: the top bit of a 32-bit event list item value, set while an
      event group keeps its own data there. */
  const IN_USE: nat := 0x8000_0000

  /** The same bit, for the words of event bits. */
  const IN_USE_BIT: bv32 := 0x8000_0000

  lemma SameBit()
    ensures IN_USE_BIT as nat == IN_USE
  {
  }

  predicate InUse(value: nat) {
    value >= IN_USE
  }
}
