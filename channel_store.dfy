/** The channel selection store (`useChannelStore`): one field, the selected
    channels, overwritten by each action. */
module ChannelStore {
  import opened Collections

  class Store {
    var selectedChannels: seq<string>

    /** The store starts with nothing selected. */
    constructor ()
      ensures selectedChannels == []
    {
      selectedChannels := [];
    }

    /** `setSelectedChannels`: replaces the list wholesale. */
    method SetSelectedChannels(channels: seq<string>)
      modifies this
      ensures selectedChannels == channels
    {
      selectedChannels := channels;
    }

    /** `toggleChannel`: removes every occurrence of a selected channel,
        appends one that is not selected. */
    method ToggleChannel(channel: string)
      modifies this
      ensures selectedChannels == Toggled(old(selectedChannels), channel)
      ensures channel in old(selectedChannels) ==> multiset(selectedChannels) == multiset(old(selectedChannels))[channel := 0]
      ensures channel !in old(selectedChannels) ==> selectedChannels == old(selectedChannels) + [channel]
    {
      ghost var before := selectedChannels;
      if channel in selectedChannels {
        selectedChannels := Filter(selectedChannels, NotEqualTo(channel));
        ToggledPresent(before, channel);
      } else {
        selectedChannels := selectedChannels + [channel];
      }
    }
  }

  /** Toggling a channel that was not selected twice restores the selection. */
  method ToggleTwice(store: Store, channel: string)
    requires channel !in store.selectedChannels
    modifies store
    ensures store.selectedChannels == old(store.selectedChannels)
  {
    ghost var before := store.selectedChannels;
    store.ToggleChannel(channel);
    store.ToggleChannel(channel);
    ToggleTwiceAbsent(before, channel);
  }
}
