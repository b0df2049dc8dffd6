/** The engagement calculator: (likes + comments) / views, guarded against a
    zero view count. Python's true division is modelled exactly over `real`. */
module Process {

  function EngagementRate(likes: int, comments: int, views: int): (r: real)
    ensures views == 0 ==> r == 0.0
    ensures views != 0 ==> r * views as real == (likes + comments) as real
    ensures likes + comments == 0 ==> r == 0.0
    ensures likes >= 0 && comments >= 0 && views > 0 ==> r >= 0.0
  {
    if views == 0 then 0.0 else (likes + comments) as real / views as real
  }

  /** For a fixed positive view count, more likes or more comments never
      lower the rate. */
  lemma EngagementMonotonic(likes: int, likes': int, comments: int, comments': int, views: int)
    requires views > 0
    requires likes <= likes' && comments <= comments'
    ensures EngagementRate(likes, comments, views) <= EngagementRate(likes', comments', views)
  {
    var v := views as real;
    var gain := (likes' - likes + comments' - comments) as real;
    assert EngagementRate(likes', comments', views) - EngagementRate(likes, comments, views) == gain / v;
  }
}
