# CourtReserve analysis: a verified model of its decision rules

The repository analyses the CSV exports of a pickleball club's booking system, CourtReserve.
This project models in Dafny the deterministic logic of four of its scripts and proves what
that logic promises. The logic consists of rules, parsers and aggregations; the pandas and
scikit-learn calls are the surrounding plumbing.

- **Customer segmentation and Jobs-to-be-Done analysis** (`analyze_courtreserve_jtbd.py`):
  - the per-customer behavioural features (time-of-day and weekday shares, partner ids mined
    from the free-text `Members` field, event, engagement, spend and booking-style rates, the
    membership-tier code and the DUPR skill rating);
  - the choice of the cluster count;
  - the segment profiles;
  - the first-match-wins cascade that gives each segment one of five Jobs-to-be-Done archetypes;
  - the detection of "context switchers", customers who behave differently in the morning and
    the evening, or on weekdays and at weekends.

  The analyzer object is a class whose fields the analysis steps set in turn.
- **Shadow market** (`analyze_shadow_market_heatmap.py`):
  - parsing of utilisation time slots;
  - the weekday 9 AM to 4 PM filter, with grouping by (day, hour);
  - the ranking of the ten quietest windows;
  - the revenue figures for the empty capacity.

  The nested accumulation loops are methods proved against the function they implement.
- **Pay-per-use segment** (`analyze_pay_per_use_segment.py`):
  - the non-member filter and the price and time-of-day parsers;
  - the `non_members` frame, which gains its two derived columns in place;
  - the per-player spend table, the high-value targets and the conversion revenue formula.
- **Database import** (`scripts/create_database.py`):
  - the three column-name normalisations;
  - the in-place suffixing of duplicate column names, done on an `array`;
  - the transaction summary-row removal and the loop over the transaction files;
  - the `$`-amount and total-string conversions;
  - the `tables_created` and `total_records` counters.

Modelling conventions:
- A pandas cell is `Cell = Missing | Num(real) | Text(string)`. A text-only column is an
  `Option<string>`, and NaN or NaT is `None`.
- A timestamp is a number of minutes since 1970-01-01 00:00.
- Numbers are exact `real`s.
- Python's `float()`, `int()` and `pd.to_numeric` accept the decimal notation only.
- Character classes are ASCII.
- The clustering itself, the silhouette score and the calendar lookup `strptime` are
  parameters of the model.

Modules: `Common` (strings, numbers, counting), `Sorting` (stable `sorted` on a real key),
`Features`, `Jtbd`, `ContextSwitch`, `Segmentation`, `Analysis` (the analyzer class),
`ShadowMarket`, `PayPerUse`, `Database`.

## Model

| member | source | states |
|---|---|---|
| Features.PartnerIds | analyze_courtreserve_jtbd.py:205 | `re.findall(r'#(\d+)')`: every extracted id is a non-empty run of digits |
| Features.PartnerIdsIff | analyze_courtreserve_jtbd.py:205 | an id is extracted exactly when it is the whole digit run directly after some `#` of the text |
| Features.PartnerIdsSkip | analyze_courtreserve_jtbd.py:205 | text without `#` contributes no ids, whatever follows it |
| Features.PartnerIdsOfRendered | analyze_courtreserve_jtbd.py:203-205 | on a `Members` field written as `Name (#ID), Name2 (#ID2)` with `#`-free names, extraction returns exactly the ids, in order |
| Features.PartnerSetIff | analyze_courtreserve_jtbd.py:200-206 | `unique_partners` holds exactly the ids following a `#` in some non-null `Members` entry of the customer's visits, other than the customer's own id |
| Features.CollectPartners | analyze_courtreserve_jtbd.py:200-206 | the partner loop, which adds each entry's ids to a set, yields exactly that partner set |
| Features.EncodeMembershipTier | analyze_courtreserve_jtbd.py:289-305 | the tier lies in 0..5; it is 0 exactly for a missing membership; 'founder' (any case) gives 5 before any other keyword is tested |
| Features.UnmatchedTierIsOne | analyze_courtreserve_jtbd.py:293-305 | a present membership encodes as 1 exactly when its lower-cased text contains none of the nine keywords |
| Features.TierIgnoresCase | analyze_courtreserve_jtbd.py:293 | the tier does not depend on letter case |
| Features.ParseDupr | analyze_courtreserve_jtbd.py:307-316 | a given doubles rating wins; otherwise a given singles rating; 0.0 when neither is given; a chosen rating (doubles, or singles when doubles is not given) that fails to convert gives 0.0 without falling back to the other |
| Features.DuprIgnoresSinglesWhenDoublesGiven | analyze_courtreserve_jtbd.py:310-311 | once doubles is given, the singles cell has no influence |
| Features.DuprOfDecimalText | analyze_courtreserve_jtbd.py:310-311 | a doubles text `ip.fp` reads as that decimal |
| Features.HourOf | analyze_courtreserve_jtbd.py:183 | `.dt.hour` lies in 0..23 |
| Features.DayOfWeek | analyze_courtreserve_jtbd.py:189 | `.dt.dayofweek` lies in 0..6 |
| Features.MemberVisits | analyze_courtreserve_jtbd.py:170 | every selected reservation belongs to the customer, every reservation of the customer is selected, and there are exactly as many as the table holds for that customer |
| Features.DateRange | analyze_courtreserve_jtbd.py:234-235 | the active range, when any timestamp parsed, is at least one day |
| Features.BookingsPerMonth | analyze_courtreserve_jtbd.py:234-236 | the monthly booking rate is never negative |
| Features.SameDayBookingRate | analyze_courtreserve_jtbd.py:234-236 | visits all on one calendar day give a one-day range, so 30 bookings a month per visit |
| Features.MemberFeatures | analyze_courtreserve_jtbd.py:166-287 | no row exactly for a customer without reservations; otherwise the row carries the customer's id and their visit count as `total_bookings` |
| Features.ExtractMemberFeatures | analyze_courtreserve_jtbd.py:166-287 | the method, with its partner loop, returns what `MemberFeatures` specifies |
| Features.DayShares | analyze_courtreserve_jtbd.py:183-186 | the morning, afternoon and evening shares are non-negative and, the hour ranges being disjoint, add up to at most 1 |
| Features.WeekCoverage | analyze_courtreserve_jtbd.py:189-191 | weekday and weekend visits together count at most all visits, and exactly all when every timestamp parsed |
| Features.WeekShares | analyze_courtreserve_jtbd.py:189-191 | `pct_weekday` and `pct_weekend` lie in [0, 1] and sum to 1 exactly when every timestamp parsed |
| Features.RatesAreShares | analyze_courtreserve_jtbd.py:211-229 | the solo, guest, event, organized, drop-in and payment rates lie in [0, 1]; the drill, social and competitive counts are at most the event count, which is at most the visit count |
| Features.CheckInRateShare | analyze_courtreserve_jtbd.py:240-249 | the check-in rate lies in [0, 1] and is 0 exactly when no check-in says Checked-In; the has-data flag is 1 exactly when the customer has check-ins |
| Features.PartnerFeatures | analyze_courtreserve_jtbd.py:200-209 | `unique_partners` is the size of the partner set, which never holds the customer's own id, and `partner_variety_rate` is that size per visit |
| Features.DistinctIds | analyze_courtreserve_jtbd.py:151 | the customers are the present player ids, each exactly once |
| Features.DistinctIdsOrder | analyze_courtreserve_jtbd.py:151 | the customers are in order of first appearance: every reservation of a later customer is preceded by one of each earlier customer |
| Features.ListedHasFeatures | analyze_courtreserve_jtbd.py:154-157 | no listed customer is skipped for lack of reservations |
| Jtbd.DerivePredicates | analyze_courtreserve_jtbd.py:448-458 | each of the nine predicates holds exactly when its mean is strictly above its threshold (0.5, 0.5, 0.6, 0.3, 0.3, 2, 2, 8, 20), with a missing feature read as 0 |
| Jtbd.DeriveMonotone | analyze_courtreserve_jtbd.py:448-458 | raising any means never switches a predicate off |
| Jtbd.Rule1HasPriority | analyze_courtreserve_jtbd.py:477-490 | when rule 1 holds the result is "Consistent Exercisers", even if later rules hold too |
| Jtbd.CasualExactlyWhenNoRuleMatches | analyze_courtreserve_jtbd.py:477-554 | "Casual Explorers" is returned exactly when none of rules 1 to 4 holds |
| Jtbd.ConfidenceByArchetype | analyze_courtreserve_jtbd.py:489-553 | confidence is high for exactly the first three archetypes |
| Jtbd.NamesDistinct | analyze_courtreserve_jtbd.py:479-543 | the hypothesis name identifies the archetype |
| Jtbd.EmptySignatureIsCasual | analyze_courtreserve_jtbd.py:448-458 | a segment without any feature means is classified as "Casual Explorers" |
| Jtbd.MorningRoutineSignature | analyze_courtreserve_jtbd.py:448-490 | a segment with high weekday-morning shares, high booking frequency and low partner variety is "Consistent Exercisers", whatever else it shows |
| Jtbd.FirstMatch | analyze_courtreserve_jtbd.py:477-554 | a decision table returns the archetype of its first row that holds, or the fallback when none does |
| Jtbd.CascadeIsFirstMatch | analyze_courtreserve_jtbd.py:477-554 | the if/elif cascade agrees on every input with the decision table of its four rules and the fallback |
| ContextSwitch.Summary | analyze_courtreserve_jtbd.py:631-648 | a side's pattern counts its bookings and its partner set; it flags guests exactly when some booking lists guests; its event rate lies in [0, 1] |
| ContextSwitch.SummarizeContextPattern | analyze_courtreserve_jtbd.py:631-648 | the method, with its partner loop, returns that pattern |
| ContextSwitch.PatternsDifferIff | analyze_courtreserve_jtbd.py:650-665 | two patterns differ exactly when the party sizes are more than 1 apart, the partner counts more than 3 apart, or the event rates more than the threshold apart |
| ContextSwitch.PatternsDifferSymmetric | analyze_courtreserve_jtbd.py:650-665 | the test does not depend on which pattern comes first |
| ContextSwitch.PatternsDifferIrreflexive | analyze_courtreserve_jtbd.py:650-665 | a pattern never differs from itself when the threshold is non-negative |
| ContextSwitch.AxisContext | analyze_courtreserve_jtbd.py:588-613 | an axis contributes one entry exactly when both sides have at least two visits and their patterns differ, and none otherwise |
| ContextSwitch.SwitcherEmission | analyze_courtreserve_jtbd.py:567-624 | a customer is emitted exactly when they have at least `min_bookings` visits and one axis diverges; the entry carries their id, their visit count and the diverging axes |
| ContextSwitch.ContextsOrder | analyze_courtreserve_jtbd.py:585-613 | the entry lists one context per diverging axis, time of day before day of week, and a listed axis implies at least two visits |
| ContextSwitch.EvidenceSides | analyze_courtreserve_jtbd.py:588-613 | every recorded axis compares two sides of at least two bookings whose patterns differ |
| ContextSwitch.SwitchersAreQualifyingIds | analyze_courtreserve_jtbd.py:571-624 | the switcher list names exactly the qualifying active customers, in their input order |
| ContextSwitch.CompareAxis | analyze_courtreserve_jtbd.py:588-613 | one axis step computes that axis's contribution |
| ContextSwitch.DetectSwitcher | analyze_courtreserve_jtbd.py:572-624 | the per-customer step emits the specified entry |
| ContextSwitch.DetectSwitchers | analyze_courtreserve_jtbd.py:564-629 | the loop builds the specified switcher list |
| Segmentation.ScoreableIff | analyze_courtreserve_jtbd.py:346 | a clustering can be scored exactly when two customers got different labels |
| Segmentation.SelectBestK | analyze_courtreserve_jtbd.py:337-355 | the chosen k is in range, scoreable and has the greatest score; every earlier scoreable k scores strictly less, so ties keep the earlier k; no k is chosen exactly when no scoreable k beats the initial -1 |
| Segmentation.SegmentIds | analyze_courtreserve_jtbd.py:398 | `sorted(segment.unique())`: strictly increasing, holding exactly the labels that occur |
| Segmentation.SignatureOf | analyze_courtreserve_jtbd.py:413-428 | the signature has exactly the key features, each mapped to the segment's mean of that feature |
| Segmentation.Segment | analyze_courtreserve_jtbd.py:399 | a segment is as large as its label's count |
| Segmentation.SegmentMembers | analyze_courtreserve_jtbd.py:399 | a segment holds exactly the customers carrying its label |
| Segmentation.ProfileFor | analyze_courtreserve_jtbd.py:401-428 | the profile carries its label and a positive size equal to the label's count; its share is the size over the number of customers, times 100; it samples the first ten member ids, or all of them when the segment is smaller; its signature covers exactly the key features |
| Segmentation.MemberSampleBelongs | analyze_courtreserve_jtbd.py:405 | the member sample lists the segment's first customers, in table order |
| Segmentation.ProfilesPartition | analyze_courtreserve_jtbd.py:398-430 | the profile sizes add up to the number of customers |
| Segmentation.WithHypothesis | analyze_courtreserve_jtbd.py:444-467 | a profile gains the hypothesis its own signature selects, and nothing else about it changes |
| Analysis.AllFeaturesCoverCustomers | analyze_courtreserve_jtbd.py:150-159 | the feature table has one row per customer, in order of first appearance, each carrying that customer's id |
| Analysis.ActiveIds | analyze_courtreserve_jtbd.py:567-569 | an id is active exactly when some customer row with that id has at least `min_bookings` bookings; there are at most as many as customers |
| Analysis.Analyzer.constructor | analyze_courtreserve_jtbd.py:46-59 | a new analyzer holds the loaded tables and none of the results yet |
| Analysis.Analyzer.EngineerFeatures | analyze_courtreserve_jtbd.py:141-164 | the feature loop stores the specified table and leaves the other results alone |
| Analysis.Analyzer.ClusterCustomers | analyze_courtreserve_jtbd.py:337-358 | the labels of the best k are stored; when no k is chosen the state is unchanged |
| Analysis.Analyzer.ProfileSegments | analyze_courtreserve_jtbd.py:390-435 | the stored profiles are one per label, in increasing label order |
| Analysis.Analyzer.GenerateJtbdHypotheses | analyze_courtreserve_jtbd.py:437-469 | each stored profile, updated in place, gains its own signature's hypothesis |
| Analysis.Analyzer.IdentifyContextSwitchers | analyze_courtreserve_jtbd.py:556-629 | the stored switchers are those of the active customers |
| ShadowMarket.To24Conversion | analyze_shadow_market_heatmap.py:47-50 | 12 AM is 0 and 12 PM is 12; other PM hours gain 12 and other AM hours stay; a clock hour 1..12 lands in 0..23, below 12 exactly for AM |
| ShadowMarket.ParseTimeSlot | analyze_shadow_market_heatmap.py:39-40 | only a text cell can parse |
| ShadowMarket.WellFormedSlot | analyze_shadow_market_heatmap.py:42-52 | a slot `H:MM AM - ...` or `H:MM PM - ...` parses to the 24-hour form of H |
| ShadowMarket.SlotWithoutPeriod | analyze_shadow_market_heatmap.py:44 | a start time without a space fails to split, and the slot gives None |
| ShadowMarket.StartWithExtraSpace | analyze_shadow_market_heatmap.py:44 | a start time with two or more spaces fails to split into hour and period |
| ShadowMarket.UnparsableHour | analyze_shadow_market_heatmap.py:45 | a start time whose text before the colon is not an integer gives None |
| ShadowMarket.SlotWithMalformedStart | analyze_shadow_market_heatmap.py:43-54 | a slot whose start time has an extra space or an unreadable hour gives None |
| ShadowMarket.PercentCell | analyze_shadow_market_heatmap.py:100-105 | a cell `ip.fp %` reads as the decimal `ip.fp` |
| ShadowMarket.UnparsableCellIsZero | analyze_shadow_market_heatmap.py:101-107 | text that does not parse once '%' and spaces are gone counts as 0 |
| ShadowMarket.KeysExact | analyze_shadow_market_heatmap.py:110-113 | the dictionary keys are distinct, and a key is stored exactly when its list is non-empty |
| ShadowMarket.KeysInWindow | analyze_shadow_market_heatmap.py:79-93 | every stored key names a weekday (0..4) and an hour of 9..15 |
| ShadowMarket.ObservationsEmpty | analyze_shadow_market_heatmap.py:88-114 | there is no observation exactly when there is no weekday date column or no row |
| ShadowMarket.BucketsPartition | analyze_shadow_market_heatmap.py:110-114 | every processed cell goes to exactly one list and to `all_values`: the list lengths add up to its length |
| ShadowMarket.Averages | analyze_shadow_market_heatmap.py:117-119 | one average per stored key, in insertion order, each over a non-empty list |
| ShadowMarket.AveragesBounded | analyze_shadow_market_heatmap.py:117-119 | when every cell lies between two bounds, so does every average |
| ShadowMarket.LowestWindows | analyze_shadow_market_heatmap.py:122-123 | at most ten windows, ascending by average, all taken from the averages, and no window left out is quieter than one kept |
| ShadowMarket.CapacityArithmetic | analyze_shadow_market_heatmap.py:131-142 | the annual opportunity is 1146.6 per point of empty utilisation; fillable capacity is 30% of the empty court-hours, which lie in 0..245 for a utilisation in 0..100; a quieter club is worth more |
| ShadowMarket.Analysis | analyze_shadow_market_heatmap.py:64-153 | the overall average, and with it the capacity figures, is NaN exactly when no cell was processed |
| ShadowMarket.AnalysisWindows | analyze_shadow_market_heatmap.py:79-119 | every averaged window is a distinct weekday hour of 9 AM to 4 PM |
| ShadowMarket.NoObservations | analyze_shadow_market_heatmap.py:76-114 | there are no averages exactly when no weekday column or no slot in the window exists |
| ShadowMarket.Record | analyze_shadow_market_heatmap.py:110-114 | one append keeps the dictionary and `all_values` in step with the observations |
| ShadowMarket.AccumulateColumn | analyze_shadow_market_heatmap.py:96-114 | the inner loop adds one column's cells, row by row |
| ShadowMarket.Accumulate | analyze_shadow_market_heatmap.py:88-114 | the nested loops leave the dictionary and `all_values` holding exactly the observations, in loop order |
| ShadowMarket.AverageBuckets | analyze_shadow_market_heatmap.py:117-119 | the averaging loop gives each key the mean of its list |
| ShadowMarket.AnalyzeShadowMarket | analyze_shadow_market_heatmap.py:64-153 | the method computes the specified result |
| Sorting.SortBy | analyze_shadow_market_heatmap.py:122 | `sorted` returns an ascending permutation of its input |
| Sorting.SortedPrefixSmallest | analyze_shadow_market_heatmap.py:123 | a sorted prefix holds the smallest elements |
| PayPerUse.FirstToken | analyze_pay_per_use_segment.py:36 | `split()[0]` exists exactly when the text is not all whitespace, and is a non-empty run without whitespace |
| PayPerUse.PriceFallbacks | analyze_pay_per_use_segment.py:29-38 | NaN, a number and text without '$' all give 0.0 |
| PayPerUse.PriceOfToken | analyze_pay_per_use_segment.py:34-40 | after the first '$', optional whitespace and a token without whitespace or '$', the price is that token's float value, or 0.0 when it does not parse |
| PayPerUse.DropInPrice | analyze_pay_per_use_segment.py:27-37 | the drop-in form `(Drop-in)  $16.00` reads as the decimal after the '$' |
| PayPerUse.ParseTimeOfDay | analyze_pay_per_use_segment.py:44-47 | NaN and non-text are 'unknown' |
| PayPerUse.TimePriority | analyze_pay_per_use_segment.py:49-54 | 'morning' wins over everything, evening words over the midday ones, midday words over the hour lists |
| PayPerUse.TimeIgnoresCase | analyze_pay_per_use_segment.py:47 | the label does not depend on letter case |
| PayPerUse.UnknownIff | analyze_pay_per_use_segment.py:44-64 | 'unknown' is returned exactly for non-text and for names with none of the keywords or hours |
| PayPerUse.ElevenPmReadsAsMidday | analyze_pay_per_use_segment.py:53-62 | the hour tests match substrings: "11:00 pm" contains "1:00 pm" and reads as midday |
| PayPerUse.NonMembers | analyze_pay_per_use_segment.py:81 | the frame keeps exactly the check-ins whose membership contains "Non-Member/Visitor" |
| PayPerUse.NonMemberIgnoresCase | analyze_pay_per_use_segment.py:81 | the membership test does not depend on letter case |
| PayPerUse.CountTimes | analyze_pay_per_use_segment.py:122 | each label's count is the number of check-ins with that label, and the four add up to the number of check-ins |
| PayPerUse.Players | analyze_pay_per_use_segment.py:92 | the groups are the present player ids, each once; they number at most the check-ins |
| PayPerUse.GroupFirstIsFirst | analyze_pay_per_use_segment.py:144-147 | `first` is the value of the player's earliest check-in that has one, and NaN exactly when none has |
| PayPerUse.SpendTableRows | analyze_pay_per_use_segment.py:142-154 | one row per present player, each player once, and the monthly estimate is the total over four |
| PayPerUse.SpendConserved | analyze_pay_per_use_segment.py:142-143 | the players' totals add up to the prices of all check-ins that have a player |
| PayPerUse.HighValueTargets | analyze_pay_per_use_segment.py:157 | the targets are exactly the table rows spending more than $80 a month, each as often as in the table, biggest spender first |
| PayPerUse.HighValueThreshold | analyze_pay_per_use_segment.py:154-157 | on a table row, the $80-a-month bar is a total above $320 |
| PayPerUse.AvgVisits | analyze_pay_per_use_segment.py:94 | the average times the player count is the check-in count, and it is 0 without players |
| PayPerUse.AvgVisitsAtLeastOne | analyze_pay_per_use_segment.py:92-94 | a non-empty segment averages at least one visit per player |
| PayPerUse.AnnualRevenue | analyze_pay_per_use_segment.py:177-182 | 20% of the players at $99 a month for 12 months is $237.60 a player |
| PayPerUse.RevenueAdds | analyze_pay_per_use_segment.py:181-182 | revenue adds over disjoint groups of players and grows with them |
| PayPerUse.NonMemberFrame.constructor | analyze_pay_per_use_segment.py:81 | the frame is the copied non-member rows, without derived columns |
| PayPerUse.NonMemberFrame.AddPriceColumn | analyze_pay_per_use_segment.py:86 | `price_numeric` holds the parsed price of every row; the other column is untouched |
| PayPerUse.NonMemberFrame.AddTimeOfDayColumn | analyze_pay_per_use_segment.py:89 | `time_of_day` holds the label of every row; the other column is untouched |
| PayPerUse.AnalyzeSegment | analyze_pay_per_use_segment.py:66-200 | the method computes the specified segment figures |
| Database.NormalizeColumnChars | scripts/create_database.py:103 | a normalised name is the stripped name, lower-cased, with ' ' and '/' turned into '_' |
| Database.NormalizedIsClean | scripts/create_database.py:103 | a normalised name has no space, no '/', no upper-case letter and no whitespace at either end |
| Database.NormalizeIdempotent | scripts/create_database.py:103 | normalising twice changes nothing |
| Database.CheckinColumnIsClean | scripts/create_database.py:145 | check-in names are clean and have no '-' |
| Database.CheckinColumnIdempotent | scripts/create_database.py:145 | check-in normalisation applied twice changes nothing |
| Database.TransactionColumnIsClean | scripts/create_database.py:241 | transaction names are clean and have no '.' |
| Database.DuplicatedNames | scripts/create_database.py:306 | `cols[cols.duplicated()].unique()` lists exactly the names occurring at least twice, each once |
| Database.RenameInPlace | scripts/create_database.py:307 | the array assignment renames the group of one name by position and nothing else |
| Database.RenameDuplicates | scripts/create_database.py:305-308 | the loop renames each duplicated group in turn, in place |
| Database.SuffixDuplicates | scripts/create_database.py:304-308 | the instructors header ends as the specified `Deduplicated` header |
| Database.UniqueNameKept | scripts/create_database.py:306-307 | a name occurring once keeps it |
| Database.RenameAllExtends | scripts/create_database.py:307 | every new name starts with the name it replaces |
| Database.DeduplicatedNoClash | scripts/create_database.py:305-308 | when no suffixed name is itself a duplicated name, each duplicated name keeps its first occurrence and its r-th later one becomes `name_r`; other names are unchanged |
| Database.DistinctUnchanged | scripts/create_database.py:305-308 | a header without repeats is left as it is |
| Database.SuffixClash | scripts/create_database.py:305-308 | `a, a, a_1` becomes `a, a_1, a_1`: the result can still repeat a name |
| Database.ColumnIndex | scripts/create_database.py:244 | the first position holding the name, or none exactly when the name is absent |
| Database.RowsWith | scripts/create_database.py:245 | the mask fails exactly when the column is missing and keeps the header |
| Database.SummaryRowsDropped | scripts/create_database.py:243-245 | exactly the rows with a null transaction id go; kept rows keep their order; kept and dropped counts make up the file |
| Database.NoIdColumnKept | scripts/create_database.py:244 | a file without a `transaction_id` column is kept whole |
| Database.ImportTransactions | scripts/create_database.py:232-261 | each file is cleaned and listed in order, and the record count is their total row count |
| Database.ImportNeverGrows | scripts/create_database.py:243-250 | the combined transactions have no more rows than were read |
| Database.DollarFrom | scripts/create_database.py:153 | the leftmost '$' followed by a digit, or none exactly when there is no such pair |
| Database.PriceAmount | scripts/create_database.py:153 | `price_amount` is NaN exactly for non-text and for text with no '$' followed by a digit |
| Database.AmountOfDecimal | scripts/create_database.py:151-153 | `...$16.00...` reads as the decimal after the first '$'-digit pair |
| Database.AmountOfWhole | scripts/create_database.py:153 | `$16` followed by neither a digit nor a point reads as the whole number |
| Database.PriceReadersAgree | scripts/create_database.py:153 | on the drop-in form, the import's `price_amount` and the segment analysis's `parse_price` agree |
| Database.CleanTotalIdempotent | scripts/create_database.py:333 | the cleaned total has no '$' and no ',', and cleaning again changes nothing |
| Database.TotalOfDollars | scripts/create_database.py:331-333 | `$1,234.56` converts to 1234.56 |
| Database.TotalWithoutDigits | scripts/create_database.py:333 | a total without digits becomes NaN |
| Database.ImportLog.constructor | scripts/create_database.py:89-90 | both counters start at 0 |
| Database.ImportLog.Imported | scripts/create_database.py:115-116 | one written table adds one table and its records |
| Database.CountsOfSources | scripts/create_database.py:96-340 | every table counts exactly when every file is found, and no table found means no records |
| Database.CountImports | scripts/create_database.py:89-340 | the counters end as the number of tables found and the sum of their records |

## Left out

- CSV reading, SQLite writes, index creation, the removal of the old database, file globbing
  and `find_latest_csv`'s ordering by size and modification time: these are I/O.
  `Database.CountImports` takes the outcome of each import (found, with so many rows) as input.
- `clean_data` and the `pd.to_datetime` calls. Timestamps arrive already parsed, NaT as `None`.
- `get_day_of_week`, whose `strptime` is a parameter `dayOf` returning an optional day 0..6.
- The clustering libraries (KMeans, DBSCAN, agglomerative clustering, the scaler), the
  silhouette and Davies-Bouldin scores, and the feature selection and `fillna` in front of
  them. Only the selection loop over k is modelled; the labels and scores of each k are parameters.
- The standard deviations (`time_consistency`, `day_consistency`, segment std), the medians
  (segment median, `overall_median`), `describe()` and `value_counts()` beyond the
  time-of-day counts. These are floating-point statistics that are only printed or reported.
- Reports, JSON export, heatmaps, charts and every `print`.
- The sales-summary name cleanup, whose whitespace-collapsing regex is not modelled.
- The court-utilisation `melt`.
- The column union of `pd.concat`: only the rows are counted.
- Float rounding: numbers are exact reals.
- Python's `float()` and `pd.to_numeric` forms with an exponent, `inf`, `nan`, underscores or
  non-ASCII digits. Also left out are Unicode case folding and Unicode whitespace.
- A price column whose every cell is a number: pandas would then refuse `.str.extract`.
- Duplicate column names in pandas selections. A column is looked up at its first position.
- The order of `groupby` groups. Player groups are listed in order of first appearance, not
  sorted by key, and `sort_values` ties are broken stably (pandas' default quicksort is not stable).
- The weekly periodicity of the day of week, and the count of shadow-market observations as
  the number of weekday columns times the number of rows. Only the empty case of that count is
  stated, in `ShadowMarket.ObservationsEmpty`.
- Database.SuffixDuplicates: does not promise distinct names, because the code does not keep
  that promise. `Database.SuffixClash` shows a header that still repeats a name.
  `Database.DeduplicatedNoClash` states the positional naming where no clash arises.
- PayPerUse.ParseTimeOfDay: follows the code's substring tests, so "11:00 pm" reads as midday;
  `PayPerUse.ElevenPmReadsAsMidday` states this.
- Database.ImportTransactions: the header cleaning and the summary-row removal of each file
  form one function, `CleanTransactions`. The date parsing after the concatenation is left out.
- Analysis.Analyzer.ClusterCustomers: when no k is chosen the code fails at
  `best_kmeans.predict`; the model then leaves the state unchanged. DBSCAN and hierarchical
  labels are not stored.
