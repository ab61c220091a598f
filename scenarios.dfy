/**
 * The sample postings the page ships with, and what the filter and the page
 * do with them.
 */
module Scenarios {
  import opened Text
  import opened Filtering
  import opened Board

  const WebDeveloper: Job := Job(
    "Junior Web Developer", "Mabuhay Tech Solutions", "Metro Manila", "Full-time",
    "PHP 25,000 - 35,000 / month", "3 days ago", false,
    ["HTML", "CSS", "JavaScript", "Git"],
    "Tulong sa paggawa at pag-maintain ng company websites. Open sa fresh graduates na may basic web dev skills.",
    "mailto:hr@mabuhaytech.ph?subject=Application%20-%20Junior%20Web%20Developer")

  const EslTeacher: Job := Job(
    "Online ESL Teacher", "Bayan Learning Center", "Remote", "Part-time",
    "PHP 180 - 230 / hour", "1 week ago", true,
    ["English Communication", "Teaching", "Zoom"],
    "Mag-turo ng English sa mga bata at adults online. May training at provided na lesson materials.",
    "mailto:jobs@bayanlearning.ph?subject=Application%20-%20Online%20ESL%20Teacher")

  const Nurse: Job := Job(
    "Registered Nurse", "Pag-asa Medical Center", "Cebu", "Full-time",
    "PHP 30,000 - 45,000 / month", "2 days ago", false,
    ["Nursing", "Patient Care", "BLS/ACLS"],
    "Magbibigay ng nursing care sa mga pasyente sa medical-surgical ward. Open sa may valid PRC license.",
    "mailto:careers@pagasamedical.ph?subject=Application%20-%20Registered%20Nurse")

  const SupportRepresentative: Job := Job(
    "Customer Support Representative", "IslaConnect BPO", "Davao", "Contract",
    "PHP 28,000 - 32,000 / month", "5 days ago", false,
    ["Communication", "Customer Service", "Call Center"],
    "Sasagot sa tawag at chat ng customers. Night shift; may night differential at allowances.",
    "mailto:apply@islaconnect.ph?subject=Application%20-%20Customer%20Support%20Representative")

  const DesignIntern: Job := Job(
    "Graphic Design Intern", "Likhain Studio", "Metro Manila", "Internship",
    "Allowance + portfolio experience", "Today", true,
    ["Canva", "Photoshop", "Creativity"],
    "Tutulong sa paggawa ng social media posts at marketing materials. Open sa students.",
    "mailto:hello@likhainstudio.ph?subject=Application%20-%20Graphic%20Design%20Intern")

  /** The static `jobs` array, in page order. */
  const SampleJobs: seq<Job> := [WebDeveloper, EslTeacher, Nurse, SupportRepresentative, DesignIntern]

  /** On page load every sample posting is listed, in page order. */
  lemma PageLoadListsSamples()
    ensures Filter(SampleJobs, Unrestricted) == SampleJobs
  {
    UnrestrictedListsAll(SampleJobs, Unrestricted);
  }

  /** The Full-time chip with keyword "nurse" finds the nurse posting: the keyword folds to "Nurse" in its title. */
  lemma NurseKeywordFindsNurse()
    ensures MatchesFilters(Nurse, FilterState("Full-time", "", "nurse"))
  {
    NurseInTitle();
    SameFolding();
    KeywordFromSearchTextMatches(Nurse, FilterState("Full-time", "", "Nurse"), 11, 16, "nurse");
  }

  lemma SameFolding()
    ensures Lower("nurse") == Lower("Nurse")
  {
    assert LowerChar('N') == 'n';
  }

  lemma NurseInTitle()
    ensures (Nurse.title + Nurse.company + Nurse.description)[11..16] == "Nurse"
  {
    var text := Nurse.title + Nurse.company + Nurse.description;
    assert Nurse.title == "Registered Nurse";
    assert text[..16] == Nurse.title;
    assert text[11..16] == Nurse.title[11..16];
  }

  /** Among the nurse and the part-time teacher, the Full-time chip with keyword "nurse" leaves only the nurse. */
  lemma FullTimeNurseScenario()
    ensures Filter([EslTeacher, Nurse], FilterState("Full-time", "", "nurse")) == [Nurse]
  {
    NurseKeywordFindsNurse();
    assert !MatchesFilters(EslTeacher, FilterState("Full-time", "", "nurse"));
  }

  /** Of the sample postings, the Full-time chip with keyword "nurse" keeps the nurse and rejects every posting of another type. */
  lemma FullTimeNurseOnSamples()
    ensures Nurse in Filter(SampleJobs, FilterState("Full-time", "", "nurse"))
    ensures EslTeacher !in Filter(SampleJobs, FilterState("Full-time", "", "nurse"))
    ensures SupportRepresentative !in Filter(SampleJobs, FilterState("Full-time", "", "nurse"))
    ensures DesignIntern !in Filter(SampleJobs, FilterState("Full-time", "", "nurse"))
  {
    NurseKeywordFindsNurse();
    FilterMembers(SampleJobs, FilterState("Full-time", "", "nurse"), Nurse);
  }

  /**
   * The page holding only the nurse posting: with keyword "nurse", the
   * Full-time chip shows the nurse card, and then the Part-time chip leaves
   * no card, shows the indicator and is the only active chip.
   */
  method PartTimeShowsNoResults() returns (fullTimeCards: seq<Job>, cards: seq<Job>, noResults: bool, active: seq<bool>)
    ensures fullTimeCards == [Nurse]
    ensures cards == [] && noResults
    ensures active == [false, false, true]
  {
    var board := new JobBoard([Nurse], ["all", "Full-time", "Part-time"], [true, false, false]);
    board.TypeKeyword("nurse");
    board.SelectChip(1);
    NurseKeywordFindsNurse();
    fullTimeCards := board.cards;
    board.SelectChip(2);
    assert board.Filters() == FilterState("Part-time", "", "nurse");
    cards, noResults, active := board.cards, board.noResults, board.chipActive[..];
  }
}
