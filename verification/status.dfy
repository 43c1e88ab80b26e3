/** The three lifecycle labels a simulated server can carry on both pages, and
    reading a status back from the text a page shows for it. */
module Lifecycle {
  import opened Wrappers

  datatype Status = Online | Offline | Starting

  /** A page's badge function shows the three statuses as three different texts. */
  predicate DistinctLabels(badge: Status -> string) {
    && badge(Online) != badge(Offline)
    && badge(Online) != badge(Starting)
    && badge(Offline) != badge(Starting)
  }

  /** The status a text labels, if any. */
  function StatusOfLabel(badge: Status -> string, text: string): (r: Option<Status>)
    ensures r.Some? ==> badge(r.value) == text
    ensures r.None? ==> badge(Online) != text && badge(Offline) != text
                        && badge(Starting) != text
  {
    if badge(Online) == text then Some(Online)
    else if badge(Offline) == text then Some(Offline)
    else if badge(Starting) == text then Some(Starting)
    else None
  }

  /** With distinct labels, reading a badge back gives the status it labels. */
  lemma LabelRoundTrip(badge: Status -> string, s: Status)
    requires DistinctLabels(badge)
    ensures StatusOfLabel(badge, badge(s)) == Some(s)
  {
  }
}
