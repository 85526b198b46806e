/** The fixed catalogue of video tutorials and their completion display. */
module Tutorials {
  import opened Membership

  datatype TutorialInfo = TutorialInfo(title: string, category: string, videoUrl: string, duration: nat)

  /** The eight catalogue entries; `duration` is in minutes. */
  const Catalogue: seq<TutorialInfo> := [
    TutorialInfo("Introduction to SQL", "SQL", "https://www.youtube.com/watch?v=HXV3zeQKqGY", 30),
    TutorialInfo("Python for Data Analysis", "Python", "https://www.youtube.com/watch?v=r-uOLxNrNk8", 45),
    TutorialInfo("Advanced Power BI", "Power BI", "https://www.youtube.com/watch?v=3u7kQp-i564", 60),
    TutorialInfo("Excel for Beginners", "Excel", "https://www.youtube.com/watch?v=Vl0H-qTclOg", 25),
    TutorialInfo("Statistics for Data Science", "Statistics", "https://www.youtube.com/watch?v=xxpc-3sLdes", 50),
    TutorialInfo("Tableau for Beginners", "Tableau", "https://www.youtube.com/watch?v=aHnwS_Mxx_4", 35),
    TutorialInfo("SQL Joins and Subqueries", "SQL", "https://www.youtube.com/watch?v=2HVMi26L54g", 40),
    TutorialInfo("Data Visualization in Python", "Python", "https://www.youtube.com/watch?v=a9UrKTVEeZA", 55)
  ]

  function Titles(catalogue: seq<TutorialInfo>): (r: seq<string>)
    ensures |r| == |catalogue| && forall i :: 0 <= i < |catalogue| ==> r[i] == catalogue[i].title
  {
    seq(|catalogue|, i requires 0 <= i < |catalogue| => catalogue[i].title)
  }

  /** Eight entries, no title twice, every duration positive. */
  lemma CatalogueShape()
    ensures |Catalogue| == 8
    ensures NoDuplicates(Titles(Catalogue))
    ensures forall i :: 0 <= i < |Catalogue| ==> Catalogue[i].duration > 0
  {
  }

  /** The progress bar of one tutorial card: full when completed, empty otherwise. */
  function ProgressPercent(completed: seq<string>, title: string): (p: nat)
    ensures p <= 100
    ensures p == 100 <==> title in completed
    ensures p == 0 <==> title !in completed
  {
    if title in completed then 100 else 0
  }

  /** Toggling a tutorial flips its own progress bar and no other. */
  lemma ToggleFlipsProgress(completed: seq<string>, title: string, other: string)
    requires other != title
    ensures ProgressPercent(Toggle(completed, title), title) == 100 - ProgressPercent(completed, title)
    ensures ProgressPercent(Toggle(completed, title), other) == ProgressPercent(completed, other)
  {
  }
}
