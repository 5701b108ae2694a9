# SmartShopper dashboard metric layer, in Dafny

This project models the metric layer of the SmartShopper Insights dashboard, a
Streamlit/pandas e-commerce dashboard. The layer is the code under
`components/` that reduces a table of click-stream events to counts, rates,
rankings, buckets and user sets. It then proves what the dashboard promises
about those numbers.

An event (`Events.Event`) has a user ID, an item ID, a category ID, a behavior
and a timestamp:

- The behavior is `pv`, `cart`, `fav`, `buy`, or any other string. The code
  never validates it.
- The timestamp is whole seconds since the Unix epoch. The calendar date, the
  hour and the day of week (Monday = 0) are integer arithmetic on it.
- A table is a sequence of events.
- Rates are exact `real` quotients. Where the source has no zero guard, pandas
  float division is modelled by `Rates.Pct`: a number, infinity, or NaN.

The modules follow the source files:

- `SidebarFilters`: the sidebar (`components/sidebar_filters.py`). The session
  state is a class whose preset buttons update the date range in place. The
  filter keeps the table it captured on the first Apply, and three filter
  stages run one after the other.
- `FunnelAnalysis`: the funnel tab (`components/funnel_analysis.py`). It holds
  the behavior counts with their 0 default, the pv-relative rates, and the
  per-category pivot. The pivot carries a total, three filled rates, a top-N
  selection and a melt into heatmap cells.
- `CategoryAnalysis`: the category tab (`components/category_analysis.py`).
  It holds the treemap counts and the top-ten category loop with its guarded
  rates. It also holds the top five by View → Buy and the hourly series of
  the five busiest categories. Both loops are methods proved against
  specification functions.
- `Overview`: the overview aggregations (`components/overview.py`). The
  overview's `create_conversion_funnel` computes the same stage counts as
  `FunnelAnalysis.FunnelStages`.
- `ProductPopularity`: the top ten items and their labels
  (`components/product_popularity.py`).
- `TimestampText`: the regular-expression cleaning of a text Timestamp
  column, shared by `product_popularity.py` and `user_behavior.py`.
- `TimeTrends`: the time tab (`components/time_trends.py`). Its render
  method adds five columns to the caller's frame in place.
- `UserBehavior`: the user tab (`components/user_behavior.py`). It covers
  the journey pairs, with the pair-counting dictionary and the link-building
  loop as methods. It also covers the segment sets, the views-per-user bins
  and the gated insights.

The shared modules are:

- `Events`: the data model, the time arithmetic, and `Frame`, a table whose
  derived columns are written in place.
- `Names`: the ID-to-name dictionaries and their reverse.
- `Grouping`: `groupby(...).size()` and `value_counts()`.
- `Ranking`: `sort_values(ascending=False).head(n)` and `nlargest(n)`.
- `Rates`: guarded and unguarded percentages.
- `Seqs`: sequence helpers.

## Model

| member | source | states |
|---|---|---|
| SidebarFilters.SessionState.constructor | components/sidebar_filters.py:33-36 | the first run holds the default range 2017-11-25 to 2017-12-02, and no table is captured |
| SidebarFilters.SessionState.SyncDates | components/sidebar_filters.py:42-45 | the date inputs become the state's range, and the captured table is untouched |
| SidebarFilters.SessionState.SetDay | components/sidebar_filters.py:47-49 | the start becomes the end date; the end and the captured table are unchanged |
| SidebarFilters.SessionState.SetWeek | components/sidebar_filters.py:51-53 | the start becomes seven days before the end date; the end is unchanged |
| SidebarFilters.SessionState.SetMonth | components/sidebar_filters.py:55-57 | the start becomes thirty days before the end date; the end is unchanged |
| SidebarFilters.SessionState.SetAll | components/sidebar_filters.py:59-62 | both dates return to the defaults |
| SidebarFilters.SessionState.ApplyAllFilters | components/sidebar_filters.py:152-171 | the table is captured only on the first apply; the result is the three stages applied to the captured table |
| SidebarFilters.SessionState.ResetFilters | components/sidebar_filters.py:173-177 | the result is the captured table when there is one, else the freshly loaded table |
| SidebarFilters.SessionState.RenderSidebar | components/sidebar_filters.py:179-186 | Apply wins over Reset; with neither pressed the input table comes back unfiltered; CategoryName is written into the frame in place |
| SidebarFilters.DateFilter | components/sidebar_filters.py:157-163 | a row is kept exactly when midnight of the start ≤ Timestamp ≤ midnight after the end date (the next midnight included); order is kept |
| SidebarFilters.BehaviorFilter | components/sidebar_filters.py:165-166 | an empty selection returns the table itself; otherwise exactly the rows of a selected behavior remain, in order |
| SidebarFilters.CategoryFilter | components/sidebar_filters.py:168-169 | an empty selection returns the table itself; otherwise exactly the rows of a selected category remain, in order |
| SidebarFilters.AllFiltersCount | components/sidebar_filters.py:156-169 | each row survives as often as it occurs exactly when it passes all three stages |
| SidebarFilters.AllFiltersSubsequence | components/sidebar_filters.py:156-171 | the filtered table is an order-preserving subsequence of the captured one |
| SidebarFilters.AllFiltersSelected | components/sidebar_filters.py:160-169 | every row of the result passes every stage |
| SidebarFilters.AllFiltersIdempotent | components/sidebar_filters.py:156-171 | filtering a filtered table again with the same selection changes nothing |
| SidebarFilters.SelectedBehaviors | components/sidebar_filters.py:76-88 | each selected option maps to the behavior in the same position of the option list |
| SidebarFilters.SelectedCategoryIds | components/sidebar_filters.py:108-113 | only known names yield IDs; every known selected name yields its ID; selecting only unknown names yields no IDs |
| SidebarFilters.SelectedCategoryIdsExact | components/sidebar_filters.py:108-113 | an ID is selected exactly when some selected name maps back to it |
| SidebarFilters.SelectedCategoryIdsAppend | components/sidebar_filters.py:108-113 | the IDs follow the order of the selected names |
| SidebarFilters.OnlyUnknownNamesKeepAllCategories | components/sidebar_filters.py:108-113 | selecting only names without an ID, such as "Other", filters no category out |
| SidebarFilters.SidebarName | components/sidebar_filters.py:91 | a mapped ID gets the name listed with it in the dictionary; any other ID gets "Other" |
| SidebarFilters.TopCategoryNames | components/sidebar_filters.py:96-98 | at most six names, one per distinct category, each a dictionary name or "Other" |
| SidebarFilters.TopCategoryNamesAreTop | components/sidebar_filters.py:96-98 | the i-th name labels the i-th most frequent ID; no ID left out occurs more often than one kept |
| Names.SidebarReverse | components/sidebar_filters.py:108 | the reverse dictionary maps every sidebar name back to its ID |
| Names.SidebarNamesDistinct | components/sidebar_filters.py:6-27 | the sidebar's category names are pairwise distinct, so reversing the dictionary loses no entry |
| Names.OtherHasNoId | components/sidebar_filters.py:108-113 | "Other" is not a dictionary name, so the reverse lookup drops it |
| Names.RoundTrip | components/sidebar_filters.py:108-113 | with distinct keys and values, the reverse dictionary undoes the dictionary and vice versa |
| Names.CategoryIdsDistinct | components/sidebar_filters.py:6-27 | no category ID is listed twice in the dictionary |
| Names.ProductIdsDistinct | components/product_popularity.py:6-47 | no product ID is listed twice in the dictionary |
| Names.CategoryName | components/sidebar_filters.py:98 | get(id, fallback) on a category dictionary: the name listed with the ID, or the fallback for an unmapped ID |
| Names.LookupEntry | components/sidebar_filters.py:6-27 | with distinct keys, every key looks up to its own value |
| Names.ProductName | components/product_popularity.py:50-51 | a known item gets the name listed with it in the dictionary; any other item gets "Product {id}"; the lookup never fails |
| Names.FallbackLabelNamesId | components/product_popularity.py:51 | an unknown item's label reads back as its ID, so different unknown items get different labels |
| Names.IntStringRoundTrip | components/product_popularity.py:51 | the decimal text of an integer reads back as that integer |
| FunnelAnalysis.BehaviorCountIsValueCount | components/funnel_analysis.py:9-13 | looking a behavior up in value_counts with default 0 gives its row count, which is 0 exactly when no row has it |
| FunnelAnalysis.Funnel | components/funnel_analysis.py:9-13 | the four counts add up to the number of rows whose behavior is pv, cart, fav or buy |
| FunnelAnalysis.StandardCountsSum | components/overview.py:43-51 | the per-behavior counts with default 0 sum to the rows of the four known behaviors |
| FunnelAnalysis.FunnelRatesOf | components/funnel_analysis.py:16-18 | each rate is count/pv × 100 when pv > 0, and all three are 0 when pv = 0 |
| FunnelAnalysis.FunnelStages | components/funnel_analysis.py:59-62 | exactly Page View, Add to Cart, Favorite, Purchase with the matching counts, in that order, summing to the known-behavior rows |
| FunnelAnalysis.PivotCellCount | components/funnel_analysis.py:94-100 | a pivot cell counts the rows with that category and that behavior |
| FunnelAnalysis.CategoryFunnel | components/funnel_analysis.py:94-104 | a category's funnel counts are its pivot cells |
| FunnelAnalysis.PivotRowFacts | components/funnel_analysis.py:103-112 | total_count is pv + cart + fav + buy with fav 0 when absent; each rate is the filled percentage of its cells (0/0 becomes 0) |
| FunnelAnalysis.Pivot | components/funnel_analysis.py:94-104 | fails exactly when the table has no pv, cart or buy row; otherwise one row per category of the table, in ascending ID order |
| FunnelAnalysis.PivotRows | components/funnel_analysis.py:94-100 | the pivot's categories are the table's distinct categories, ascending |
| FunnelAnalysis.TopByTotalFacts | components/funnel_analysis.py:115 | min(top_n, #categories) rows drawn from the pivot, non-increasing total, and no row left out has a larger total than one kept |
| FunnelAnalysis.Melt | components/funnel_analysis.py:122-135 | three cells per kept row: View → Cart, Cart → Purchase and View → Purchase, with that row's rate |
| FunnelAnalysis.MeltCounts | components/funnel_analysis.py:122-127 | every kept category has exactly three heatmap cells |
| FunnelAnalysis.HeatmapCells | components/funnel_analysis.py:82-135 | fails exactly when the pivot does; otherwise 3 × min(top_n, #categories) cells |
| Rates.FilledPercent | components/funnel_analysis.py:107-112 | a number when the denominator is positive; 0/0 is filled with 0; x/0 with x > 0 stays infinite |
| Rates.GuardedRate | components/category_analysis.py:70-72 | num/den × 100 when den > 0, else 0 |
| Rates.GuardedRateMatchesPercent | components/funnel_analysis.py:16-18 | the guarded rate agrees with the unguarded division whenever the denominator is positive |
| CategoryAnalysis.MetricName | components/category_analysis.py:34 | a mapped ID gets the name listed with it in the dictionary; any other ID gets "Electronics" |
| CategoryAnalysis.SeriesName | components/category_analysis.py:118 | a mapped ID gets the name listed with it in the dictionary; any other ID gets "Other" |
| CategoryAnalysis.FallbackNames | components/category_analysis.py:34 | a mapped ID has the same name in metrics and hourly series; an unmapped one is "Electronics" in metrics and "Other" in hourly series |
| CategoryAnalysis.MetricNamesInDictionary | components/category_analysis.py:34 | every CategoryName, the fallback included, is a name of the dictionary |
| CategoryAnalysis.Treemap | components/category_analysis.py:43-44 | one tile per distinct name, each with its row count; the tiles add up to the row count |
| CategoryAnalysis.AnalysedIdsAreTop | components/category_analysis.py:40 | at most ten distinct categories of the table; no category left out has more rows than one analysed |
| CategoryAnalysis.BuildCategoryMetrics | components/category_analysis.py:61-80 | the loop yields the metrics of the analysed categories, in order, at most ten |
| CategoryAnalysis.ComputeMetric | components/category_analysis.py:63-79 | one loop pass computes the category's metric |
| CategoryAnalysis.MetricRates | components/category_analysis.py:64-72 | views count the category's pv rows; View → Cart and View → Buy are 0 when views = 0; Cart → Buy is 0 when carts = 0 |
| CategoryAnalysis.MeltMetrics | components/category_analysis.py:88-94 | three rows per metric, grouped by conversion type |
| CategoryAnalysis.MeltNames | components/category_analysis.py:88-94 | melting keeps each category name exactly three times |
| CategoryAnalysis.TopFiveByViewToBuy | components/category_analysis.py:95 | min(5, #metrics) metrics, highest View → Buy first; none left out beats one kept |
| CategoryAnalysis.KeepNamed | components/category_analysis.py:96 | a melted row is kept exactly when its category is among the listed names |
| CategoryAnalysis.ConversionBars | components/category_analysis.py:88-96 | the bars are exactly the melted rows of the top-five names; each top metric contributes all three rows |
| CategoryAnalysis.HourlyIds | components/category_analysis.py:113 | the five busiest categories are the first five of the top-ten ranking |
| CategoryAnalysis.BuildHourlyData | components/category_analysis.py:113-119 | the loop yields one hourly series per busiest category, in ranking order |
| CategoryAnalysis.BuildHourlySeries | components/category_analysis.py:115-119 | the for loop appends one tagged hourly series per category ID, in the order of the IDs |
| CategoryAnalysis.ComputeHourlyBlock | components/category_analysis.py:116-118 | one loop pass groups the category's rows by hour and tags them with the series name |
| CategoryAnalysis.HourlyBlockAscending | components/category_analysis.py:117 | a series lists its hours in ascending order, each once |
| CategoryAnalysis.HourlyBlockHours | components/category_analysis.py:115-118 | every hour is in 0..23, every count is positive, and the series name uses the "Other" fallback |
| CategoryAnalysis.HourlyBlockCounts | components/category_analysis.py:115-117 | each hour's count is the category's rows at that hour, and the series adds up to the category's row count |
| CategoryAnalysis.Tagged | components/category_analysis.py:118 | tagging keeps every (hour, count) row and its total |
| Overview.DailyActivity | components/overview.py:33-35 | one row per distinct date, ascending, each with its row count; the counts sum to the row count |
| Overview.OverviewName | components/overview.py:61 | a mapped ID gets the name listed with it in the overview's dictionary; any other ID gets "Other" |
| Overview.TopCategories | components/overview.py:59-61 | the top_n ranking of category IDs by row count, each row labelled with its ID's overview name |
| Overview.TopProducts | components/overview.py:66-67 | at most top_n distinct items, each with its row count, non-increasing; none left out is more frequent |
| Overview.BehaviorDistribution | components/overview.py:74-75 | one row per behavior that occurs, with its row count; the counts sum to the row count |
| Ranking.TopCountsFacts | components/overview.py:59 | nlargest over value_counts: distinct keys that occur, their counts, non-increasing, and no key left out occurs more often |
| Ranking.TopByIsTop | components/funnel_analysis.py:115 | nothing left out of the top n scores higher than anything kept |
| Ranking.TopByPrefix | components/category_analysis.py:113 | head(5) of the descending ranking is a prefix of head(10) |
| Grouping.GroupCounts | components/overview.py:74 | value_counts: distinct keys, each with its occurrence count, covering every value and summing to the length |
| Grouping.SortedGroupCounts | components/time_trends.py:11 | groupby on integer keys: keys ascending, exactly the values that occur, counts summing to the length |
| Grouping.CountOfGroup | components/funnel_analysis.py:10-13 | .get(k, 0) on value_counts is the number of occurrences of k |
| ProductPopularity.TopProducts | components/product_popularity.py:65-70 | at most ten rows in value_counts order, each labelled with its item's product name |
| ProductPopularity.TopProductsRanked | components/product_popularity.py:65-69 | distinct items, each with its row count, non-increasing |
| TimestampText.ExtractDateSuffix | components/product_popularity.py:61 | no match gives null; otherwise the capture starts with a date, has at least 11 characters and no line break |
| TimestampText.ExtractIsLeftmostLine | components/user_behavior.py:23 | the capture starts at the leftmost match and runs to the end of that line |
| TimestampText.FirstMatch | components/product_popularity.py:61 | the leftmost position where the pattern matches, or none |
| TimestampText.CleanTimestamps | components/product_popularity.py:60-62 | datetime columns are untouched; each text cell becomes its own extracted capture, null exactly when the pattern does not match |
| Events.DayOf | components/time_trends.py:10 | the date of a timestamp: the timestamp lies in that day |
| Events.HourOf | components/time_trends.py:19 | the hour is in 0..23 and the timestamp lies in that hour of its day |
| Events.DayOfWeek | components/time_trends.py:36 | the weekday is in 0..6 |
| Events.Frame.SetColumn | components/sidebar_filters.py:91 | writing a column replaces just that column and keeps the rows |
| TimeTrends.DayHourCounts | components/time_trends.py:19-21 | only (day, hour) pairs that occur, each with its count, hours in 0..23, summing to the row count |
| TimeTrends.WeekendDays | components/time_trends.py:36-37 | Weekend exactly on Saturday and Sunday; 2017-11-25 is a Saturday |
| TimeTrends.DayTypeColumnMeaning | components/time_trends.py:36-37 | a row's DayType reads "Weekend" exactly when its date is a Saturday or Sunday |
| TimeTrends.DayTypeCounts | components/time_trends.py:38 | grouping by (DayType, BehaviorType) covers every row once; the counts sum to the row count |
| TimeTrends.HourRateOf | components/time_trends.py:54-55 | an hour's rate is its buy count over the pv denominator, as pandas divides |
| TimeTrends.BuyNumeratorIsCount | components/time_trends.py:55 | the buy default of 0 agrees with the hour's buy count |
| TimeTrends.PvDefaultOnlyWithoutPvColumn | components/time_trends.py:55 | when the table has pv rows, an hour without pv gets infinity or NaN, not the default of 1 |
| TimeTrends.NoPvColumnRate | components/time_trends.py:55 | without any pv row, each hour's rate is 100 × its buy count |
| TimeTrends.HourlyConversion | components/time_trends.py:53-55 | one point per hour that occurs, ascending, hours in 0..23, each that hour's rate |
| TimeTrends.RenderTimeTrends | components/time_trends.py:10-55 | adds Date, Hour, Day, Weekday and DayType to the caller's frame in place, keeps every other column, and returns the four aggregates |
| UserBehavior.MultiBehaviorMeans | components/user_behavior.py:139 | a user has more than one behavior type exactly when two of the user's rows differ in behavior |
| UserBehavior.MultiBehaviorUsers | components/user_behavior.py:139-140 | exactly the users with more than one behavior type, ascending |
| UserBehavior.ChronologicalIsOrdered | components/user_behavior.py:146 | the sorted journey never goes back in time |
| UserBehavior.Chronological | components/user_behavior.py:146 | the sort is a permutation of the user's rows |
| UserBehavior.UserPairs | components/user_behavior.py:155-159 | a user contributes at most two pairs, the consecutive pairs of the first three steps |
| UserBehavior.BuildJourneyPairs | components/user_behavior.py:149-159 | the loop's pair list is the users' pairs in user order, at most two per user |
| UserBehavior.AppendPairs | components/user_behavior.py:158-159 | the inner loop appends each consecutive pair of the steps |
| UserBehavior.CountPairs | components/user_behavior.py:165-168 | a pair is a key exactly when it occurs, and its count is its number of occurrences |
| UserBehavior.CountsOfMeaning | components/user_behavior.py:165-168 | the dictionary after any prefix maps each seen pair to its occurrences |
| UserBehavior.PairCountItems | components/user_behavior.py:165-168 | the dictionary's items are the group counts of the pairs and sum to the number of pairs |
| UserBehavior.BuildLinks | components/user_behavior.py:183-191 | the three lists are the sources, targets and values of the links, in dictionary order |
| UserBehavior.LinkMeaning | components/user_behavior.py:187-191 | a link is drawn exactly for an occurring pair of two known behaviors, with that pair's count |
| UserBehavior.LinksOfMembers | components/user_behavior.py:188 | only items whose two behaviors are known become links |
| UserBehavior.CreateUserJourneySankey | components/user_behavior.py:128-237 | as written: the result is None for every table |
| UserBehavior.UserJourney | components/user_behavior.py:142-197 | with the figure returned: it equals the journey specification |
| UserBehavior.Journey | components/user_behavior.py:142-197 | no figure exactly when fewer than ten users have two behavior types or no link is drawn; otherwise the four labelled nodes and the links |
| UserBehavior.JourneyChartExists | components/user_behavior.py:139-195 | ten users with two behavior types and only known behaviors always give a figure |
| UserBehavior.SegmentFacts | components/user_behavior.py:252-262 | Purchasers meet no other segment, Browsers meet no other segment, the union is the active users, and the Cart Abandoner/Wishlister overlap is cart ∩ fav minus buy |
| UserBehavior.OverlapCountedTwice | components/user_behavior.py:259-265 | the segment sizes add up to the active users plus the overlap |
| UserBehavior.SegmentChart | components/user_behavior.py:265-279 | no chart exactly when the sizes sum below 10; otherwise the four segments in order with their sizes |
| UserBehavior.SegmentPercentages | components/user_behavior.py:278-279 | each percentage is its size over the size sum |
| UserBehavior.SharesSumTo100 | components/user_behavior.py:278-279 | the four percentages add up to 100 |
| UserBehavior.ViewersAreViewingUsers | components/user_behavior.py:351 | the viewers are exactly the users with a pv row |
| UserBehavior.ViewerRowFacts | components/user_behavior.py:351-358 | every viewer viewed at least one item, and is flagged Purchased exactly when the user has a buy row |
| UserBehavior.BinOf | components/user_behavior.py:365-370 | a positive count falls in exactly one right-closed bin; zero or less in none |
| UserBehavior.SessionAnalysis | components/user_behavior.py:361-380 | no chart exactly when fewer than five users viewed; otherwise the five bins in plotting order, each with its viewer count and purchase rate |
| UserBehavior.BinRateBounds | components/user_behavior.py:376-380 | a bin with users has a rate in 0..100; an empty bin's rate is NaN |
| UserBehavior.BinCountsCoverViewers | components/user_behavior.py:365-380 | the bins' user counts, and so the five bars drawn, add up to the number of viewers |
| UserBehavior.MeanPurchased | components/user_behavior.py:470-471 | a group's purchase rate, 0 for an empty group, lies between 0 and 1 |
| UserBehavior.MultiplierMeaning | components/user_behavior.py:474-476 | a multiplier above 1.2 means the light rate is positive and the heavy rate is more than 1.2 times it |
| UserBehavior.InsightGates | components/user_behavior.py:482-494 | each rate insight appears exactly when its gate opens: multiplier > 1.2, cart and pv > 0, buy and cart > 0, fav and buy > 0 |
| UserBehavior.InsightDefault | components/user_behavior.py:496-503 | the abandonment insight appears exactly when some user carted; the default advice stands alone exactly when no gate opens |
| UserBehavior.BehaviorInsights | components/user_behavior.py:445-503 | one to five insights; only the default advice exactly when no gate opens on the table's user counts |
| UserBehavior.AbandonmentComplementsConversion | components/user_behavior.py:451-498 | the abandonment rate and the cart-to-buy rate add up to 100 |

## Left out

- Rendering: Streamlit layout, Plotly figure construction, colours, HTML and
  CSS strings, metric cards and messages. The category radar chart
  (`components/category_analysis.py:139-164`) is only plotting
  normalisation, and is not modelled.
- File I/O and loading: parquet reading, `get_dataset_stats`
  (`components/sidebar_filters.py:122-149`) and the loader called by reset.
  The loaded table is a parameter of `ResetFilters`.
- `st.cache_data` memoisation and `st.rerun`. Each preset method ends where
  the source reruns the script.
- `pd.to_datetime` parsing and coercion. Timestamps are integer seconds.
  The cleaned text (a `TimestampText` result) is not parsed back into seconds.
- `TimestampText.ExtractDateSuffix`: Python's `\d` also matches non-ASCII
  decimal digits. The model accepts only '0' to '9'.
- Floating point. Rates are exact reals, so the model does not capture:
  - `.round(1)` in the heatmap pivot (`components/funnel_analysis.py:107-109`);
  - the percentage and `:.1f` text formatting;
  - the "K views" category labels (`components/funnel_analysis.py:118-119`).
- `FunnelAnalysis.Melt`: the heatmap cells carry the category ID, not the
  formatted `category_label`. The final sort by that label
  (`components/funnel_analysis.py:138`) is not modelled.
- Tie order in `value_counts`, `nlargest` and `sort_values`. Ties are broken
  stably in input order. The contracts state only counts, membership and
  non-increasing order.
- Group key order. Integer keys (dates, hours, categories, users) are
  modelled sorted, as pandas sorts them. Pair, string and behavior keys
  (`Treemap`, `DayHourCounts`, `DayTypeCounts`, `BehaviorDistribution`)
  are kept in order of first appearance.
- `UserBehavior.Chronological`: pandas sorts by (UserID, Timestamp) with a
  stable lexicographic sort, and the model sorts each user's rows stably by
  timestamp, so equal timestamps keep their input order in both. The
  contracts state only the order and the permutation, not where equal
  timestamps land.
- `UserBehavior.BehaviorInsights`: returns the insights as a list of values
  carrying their numbers, not the joined HTML text.
- `render_user_behavior_tab` and the other tab renderers' orchestration.
  Only the time-trends renderer is modelled, because it writes columns into
  the caller's frame.
- `overview.main` (`components/overview.py:119-161`): it refers to an
  undefined name, so it cannot run.
- `CategoryAnalysis.MetricsOf` and `CategoryAnalysis.HourlyBlocks` state only
  their length. Their pointwise meaning is carried by their definitions and by
  `MetricRates`, `HourlyBlockCounts` and `HourlyBlockHours`, which are stated
  per element.

## Findings

| source | as written | input that shows it | evidently intended | confidence | as-written member | corrected member |
|---|---|---|---|---|---|---|
| components/user_behavior.py:237 | `return fig` is commented out, so `create_user_journey_sankey` returns None even after it has built the links | any table with at least ten users who have two behavior types, and only pv/cart/fav/buy rows | return the Sankey figure when a link exists | not executed | UserBehavior.CreateUserJourneySankey | UserBehavior.UserJourney |

The corrected method returns `UserBehavior.Journey`. `UserBehavior.JourneyChartExists`
proves that this figure exists for every input described in the row.
