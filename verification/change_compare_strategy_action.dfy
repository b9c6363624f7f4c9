/**
 * org.eclipse.compare.internal.ChangeCompareStrategyPropertyAction: a toggle action that switches one
 * compare strategy on or off in the COMPARE_STRATEGIES property of a compare configuration.
 *
 * The property holds a map object from strategy id to strategy; the action never updates that map
 * in place but stores a fresh copy, so the map object is a class of its own here.
 */
module ChangeCompareStrategyPropertyAction {
  import opened CompareStrategy

  const COMPARE_STRATEGIES: string := "COMPARE_STRATEGIES"

  /** A java.util.Map from strategy id to strategy, as an object. */
  class StrategyMap {
    var entries: map<string, Strategy>

    constructor (entries: map<string, Strategy>)
      ensures this.entries == entries
    {
      this.entries := entries;
    }
  }

  /** The part of a CompareConfiguration the action uses: its COMPARE_STRATEGIES property. */
  class CompareConfiguration {
    var compareStrategies: StrategyMap?   // null while the property is unset

    constructor (compareStrategies: StrategyMap?)
      ensures this.compareStrategies == compareStrategies
    {
      this.compareStrategies := compareStrategies;
    }
  }

  /** The new value of a property change event: a map, or anything else (null included). */
  datatype EventValue = MapValue(entries: map<string, Strategy>) | OtherValue

  datatype PropertyChangeEvent = PropertyChangeEvent(property: string, newValue: EventValue)

  /** The entries of a map property; an unset property reads as an empty map. */
  function Entries(m: StrategyMap?): map<string, Strategy>
    reads m
  {
    if m == null then map[] else m.entries
  }

  /** The map setProperty(state) stores: `id` added (mapped to `s`) or removed, all else carried over. */
  function WithStrategy(m: map<string, Strategy>, id: string, s: Strategy, state: bool): (r: map<string, Strategy>)
    ensures state ==> id in r && r[id] == s
    ensures !state ==> id !in r
    ensures forall k :: k != id ==> (k in r <==> k in m)
    ensures forall k :: k != id && k in m ==> r[k] == m[k]
  {
    if state then m[id := s] else m - {id}
  }

  /** Toggling twice restores membership of the id; the id then maps to this action's strategy. */
  lemma ToggleTwice(m: map<string, Strategy>, id: string, s: Strategy)
    ensures
      var once := WithStrategy(m, id, s, id !in m);
      var twice := WithStrategy(once, id, s, id !in once);
      && (id in twice <==> id in m)
      && (id !in m ==> twice == m)
      && (id in m ==> twice == m[id := s])
  {
  }

  class Action {
    const strategyId: string
    const strategy: Strategy
    var configuration: CompareConfiguration?
    var checked: bool

    /** getProperty: whether the strategy id is a key of the configuration's map. */
    predicate GetProperty(): (on: bool)
      requires configuration != null
      reads this, configuration, configuration.compareStrategies
      ensures configuration.compareStrategies == null ==> !on
      ensures configuration.compareStrategies != null ==> (on <==> strategyId in configuration.compareStrategies.entries)
    {
      strategyId in Entries(configuration.compareStrategies)
    }

    /** The checked state shows the configuration's state. */
    predicate Synchronized()
      reads this, configuration, if configuration != null then configuration.compareStrategies else null
    {
      configuration != null && checked == GetProperty()
    }

    /** The constructor: attach to the configuration, then switch the strategy on if it is enabled initially. */
    constructor (strategyId: string, strategy: Strategy, cc: CompareConfiguration)
      modifies cc
      ensures this.strategyId == strategyId && this.strategy == strategy && configuration == cc
      ensures Synchronized()
      ensures strategy.enabledInitially ==>
        && checked
        && fresh(cc.compareStrategies)
        && cc.compareStrategies.entries == WithStrategy(old(Entries(cc.compareStrategies)), strategyId, strategy, true)
      ensures !strategy.enabledInitially ==>
        && cc.compareStrategies == old(cc.compareStrategies)
        && checked == (strategyId in old(Entries(cc.compareStrategies)))
    {
      this.strategyId := strategyId;
      this.strategy := strategy;
      new;
      SetCompareConfiguration(cc);
      if strategy.enabledInitially {
        SetChecked(true);
        SetProperty(true);
      }
    }

    /**
     * setProperty: store a fresh copy of the configuration's map with this strategy added or removed;
     * the previous map object is left as it was. Without a configuration nothing happens.
     */
    method SetProperty(state: bool)
      modifies configuration
      ensures configuration != null ==>
        && fresh(configuration.compareStrategies)
        && configuration.compareStrategies.entries ==
             WithStrategy(old(Entries(configuration.compareStrategies)), strategyId, strategy, state)
      ensures configuration != null ==>
        var previous := old(configuration.compareStrategies);
        previous != null ==> previous.entries == old(previous.entries)
    {
      if configuration != null {
        var previous := configuration.compareStrategies;
        var strategies := new StrategyMap(map[]);
        if previous != null {
          strategies.entries := previous.entries;
        }
        if state {
          strategies.entries := strategies.entries[strategyId := strategy];
        } else {
          strategies.entries := strategies.entries - {strategyId};
        }
        configuration.compareStrategies := strategies;
      }
    }

    /** setChecked, without the label and image updates. */
    method SetChecked(state: bool)
      modifies this`checked
      ensures checked == state
    {
      checked := state;
    }

    /** setCompareConfiguration, without the listener registration. */
    method SetCompareConfiguration(cc: CompareConfiguration)
      modifies this
      ensures configuration == cc
      ensures Synchronized()
    {
      configuration := cc;
      SetChecked(GetProperty());
    }

    /** run: flip the strategy's membership and show the new state. */
    method Run()
      requires configuration != null
      modifies this, configuration
      ensures configuration == old(configuration)
      ensures checked == !old(GetProperty())
      ensures fresh(configuration.compareStrategies)
      ensures configuration.compareStrategies.entries ==
                WithStrategy(old(Entries(configuration.compareStrategies)), strategyId, strategy, checked)
      ensures Synchronized()
    {
      var b := !GetProperty();
      SetChecked(b);
      SetProperty(b);
    }

    /** propertyChange: follow COMPARE_STRATEGIES events whose new value is a map; ignore all others. */
    method PropertyChange(event: PropertyChangeEvent)
      modifies this`checked
      ensures event.property == COMPARE_STRATEGIES && event.newValue.MapValue? ==>
        checked == (strategyId in event.newValue.entries)
      ensures !(event.property == COMPARE_STRATEGIES && event.newValue.MapValue?) ==> checked == old(checked)
      ensures configuration != null &&
              event == PropertyChangeEvent(COMPARE_STRATEGIES, MapValue(Entries(configuration.compareStrategies))) ==>
        Synchronized()
    {
      if event.property == COMPARE_STRATEGIES && event.newValue.MapValue? {
        SetChecked(strategyId in event.newValue.entries);
      }
    }
  }
}
