/** The provider's notification list (`provider_notifications`), which the
    slot page and the provider home page both read and clear. */
module Notices {
  import opened Wrappers
  import opened Lists
  import opened Records
  import opened Store

  /** `n.isUnread` is truthy. */
  predicate IsUnread(n: ProviderNoti) {
    n.isUnread == Some(true)
  }

  /** The badge number: `items.filter(n => n.isUnread).length`. */
  function UnreadCount(ns: seq<ProviderNoti>): (r: nat)
    ensures r <= |ns|
  {
    |Filter(ns, IsUnread)|
  }

  function MarkRead(n: ProviderNoti): ProviderNoti {
    n.(isUnread := Some(false))
  }

  /** `items.map(n => ({ ...n, isUnread: false }))`: every notification kept
      in place with only its unread flag changed. */
  function ReadAll(ns: seq<ProviderNoti>): (r: seq<ProviderNoti>)
    ensures |r| == |ns|
    ensures forall i :: 0 <= i < |r| ==> !IsUnread(r[i]) && r[i] == ns[i].(isUnread := Some(false))
  {
    Map(ns, MarkRead)
  }

  /** Clearing leaves no badge. */
  lemma ReadAllClearsBadge(ns: seq<ProviderNoti>)
    ensures UnreadCount(ReadAll(ns)) == 0
  {
    FilterNone(ReadAll(ns), IsUnread);
  }

  /** Clearing twice is clearing once. */
  lemma ReadAllIdempotent(ns: seq<ProviderNoti>)
    ensures ReadAll(ReadAll(ns)) == ReadAll(ns)
  {
  }

  /** A notification put in front raises the badge exactly when it is unread. */
  lemma PushUnreadCount(n: ProviderNoti, ns: seq<ProviderNoti>)
    ensures UnreadCount([n] + ns) == UnreadCount(ns) + (if IsUnread(n) then 1 else 0)
  {
    assert ([n] + ns)[1..] == ns;
  }

  /** Opening one notification lowers the badge by one when it was unread,
      and changes nothing else. */
  lemma MarkOneReadCount(ns: seq<ProviderNoti>, i: nat)
    requires i < |ns|
    ensures UnreadCount(ns[i := MarkRead(ns[i])]) == UnreadCount(ns) - (if IsUnread(ns[i]) then 1 else 0)
  {
    FilterUpdateCount(ns, i, MarkRead(ns[i]), IsUnread);
  }

  /** The "mark all read" button of either page, shown only while the list
      is not empty: every stored notification becomes read. */
  method MarkAllRead(st: LocalStore)
    modifies st`providerNotifications
    ensures var ns := Load(old(st.providerNotifications), []);
      if ns == [] then st.providerNotifications == old(st.providerNotifications)
      else st.providerNotifications == Present(ReadAll(ns))
    ensures UnreadCount(Load(st.providerNotifications, [])) == 0
  {
    var ns := Load(st.providerNotifications, []);
    if ns != [] {
      st.providerNotifications := Present(ReadAll(ns));
      ReadAllClearsBadge(ns);
    }
  }
}
