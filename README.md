# Vibromontajes monitoring site: views, charts, report layout and account tab

This project models the part of the Vibromontajes vibration-monitoring site
that decides what a caller sees and how a report is laid out:

- the `get_queryset` of the eleven resource views of the Django backend
  (City, Company, Profile, Machine, Image, Measurement, TermoImage, Point,
  Tendency, Espectra, TimeSignal): the choice of base (the whole table for
  staff and superusers, the caller's company's records otherwise) and the
  chain of exact-match `.filter` calls, one per query parameter present;
- the chart builder `Graphs.create_graph` (unit rule from the first point
  name, the colour palette, the `YYYYMMDD` date slicing and `datetime`
  checks, one line per distinct point) and the point table
  `Graphs.create_table_graph` (bold first cell in place, row shading by
  `data.index`);
- the report's table builders (header, footer, graph table, pictures
  table), its constants, and `afterFlowable`, which registers headings in
  the table of contents;
- the account tab of the React frontend: `toTitleCase`, the submit gate
  that validates the phone numbers, and the picture selection and removal.

Modules:

- `Wrappers`: `Option` and `Result`.
- `Orm`: the records of each model, lookup by field name, `.filter`,
  `Q(...) | Q(...)` and the exceptions these raise. `Narrow` is the
  declarative reading of a filter chain: the base restricted to the rows
  that satisfy every condition, or the first FieldError.
- `Views`: the eleven `get_queryset` methods. Each one is proved equal to
  `Narrow` of its base and its filter table.
- `Tenancy`: the ownership of each record, defined independently by
  following its keys up to a machine of the company. It also holds the
  isolation lemmas, the leak, and the corrected disjunction.
- `Quirks`: where the views read the wrong table, field or parameter.
- `Dates`: Python's `int()` for the characters up to U+00FF, `datetime`'s
  calendar, and the round trip with the `YYYYMMDD` form.
- `Chart`: `create_graph`.
- `TableImage`: `create_table_graph`.
- `Report`: the report document and its table builders.
- `Account`: the account tab.

A field value is held as its text form, so a primary or foreign key is the
text of the id, and a query parameter is compared with it directly.
`backend/models.py` is not part of this model, so each model's field set
(`Orm.Fields`) is chosen as follows. It holds the attributes of the
system's entities: Machine has identifier, name and machine_type;
Measurement has date, severity, analysis, recomendation, revised, resolved,
measurement_type and two engineers; Point has number, position and
point_type. It also holds the key to the parent that the ownership chain
follows (Company for a machine, Machine for an image or a measurement,
Measurement for a point or a thermal image, Point for the leaf rows, User
for a profile). Where no attribute is documented, it holds the fields the
non-staff branch of the view filters on: City and Profile have name; a
thermal image has image_type and machine; Tendency has value; Espectra and
TimeSignal have identifier and value. Image has only its key and its
machine. A filter on a field outside the set raises FieldError. Reading `models.models.Tendency`, or
calling `.filter` on a model instance, raises AttributeError.

Inputs from outside the code become parameters: the database, the user,
the query parameters, and the phone validators `isValidCelphone` and
`isValidPhone` of the account tab (`string -> bool`, whose bodies are not
part of this model).

## Model

| member | source | states |
|---|---|---|
| Orm.Lookup | backend/views.py:177-186 | a lookup exists exactly for the fields (and `k__id` keys) of the row's model; `id` reads the primary key |
| Orm.Where | backend/views.py:211 | filtering keeps exactly the rows that satisfy the predicate, and never more rows |
| Orm.WhereExt | backend/views.py:211 | pointwise-equal predicates select the same rows |
| Orm.WhereWhere | backend/views.py:214-217 | filtering twice is filtering once by the conjunction |
| Orm.WhereAll | backend/views.py:213 | a predicate true of every row keeps the whole table |
| Orm.WhereNone | backend/views.py:215 | a predicate true of no row keeps nothing |
| Orm.Table | backend/views.py:32 | `objects.all()` holds exactly the stored rows of that model |
| Orm.FindBy | backend/views.py:30 | the instance found has the looked-up value; when none is found, no row has it |
| Orm.FirstMissing | backend/views.py:361 | no field is missing exactly when the model has every field named; otherwise the field named is one that is missing |
| Orm.FirstMissingSnoc | backend/views.py:354-363 | one more filter raises only if the earlier ones did not, and its field is missing |
| Orm.FirstMissingAppend | backend/views.py:354-363 | the first failing filter of two chains run in turn is the first chain's, if it has one |
| Orm.FilterNarrow | backend/views.py:177-186 | one more `.filter` call conjoins one more condition to the chain |
| Orm.NarrowRows | backend/views.py:177-186 | a successful chain keeps exactly the base rows that satisfy every condition, from the same model, and never more |
| Orm.NarrowKnown | backend/views.py:214-217 | conditions on fields the model has never raise |
| Orm.NarrowRaises | backend/views.py:361 | a chain raises exactly when a field named is missing from the model, and then the error is a FieldError |
| Orm.NarrowOrderIrrelevant | backend/views.py:254-275 | the order of the filters does not change the answer |
| Orm.NarrowIntersects | backend/views.py:254-275 | two groups of filters together give the intersection of each group's answer |
| Orm.NarrowNoMatch | backend/views.py:177-186 | a condition no base row meets empties the answer |
| Orm.NarrowUnknownId | backend/views.py:177-178 | an `id` no base row has empties the answer |
| Orm.QOverMatches | backend/views.py:208-210 | the disjunction built from `Q()` matches the rows that refer to a parent, or any row when there are no parents |
| Orm.MatchesOr | backend/views.py:210 | `q \| Q(f=p)` matches a row exactly when a disjunction `q` with terms already matches it, or the row has that value |
| Orm.RefersTo | backend/views.py:211 | exactly the rows whose key is the id of one of the parents |
| Orm.SelectQOver | backend/views.py:208-211 | filtering by the built disjunction keeps the rows that refer to a parent, and keeps every row when there is no parent |
| Orm.OrEach | backend/views.py:208-210 | the loop that or-s `Q(f=p)` onto `q` for each parent builds that disjunction, and it matches as described above |
| Views.When | backend/views.py:65-66 | a guard parameter that is absent adds no condition; a present one adds the condition for the key it reads |
| Views.FilterIfGiven | backend/views.py:65-66 | one guarded `.filter` line conjoins one more condition, or leaves the queryset alone |
| Views.ScopedNarrow | backend/views.py:173-174 | a plain user's base raises DoesNotExist before any filter when `user.company` finds no row, and is filtered as the company's records otherwise |
| Views.MeasurementsOfCompany | backend/views.py:248-251 | the loop over the company's machines gives the measurements the disjunction selects |
| Views.PointsOfCompany | backend/views.py:344-351 | the two nested loops give the points the disjunctions select |
| Views.LeavesOfCompany | backend/views.py:387-398 | the three nested loops give the leaf rows the disjunctions select |
| Views.WhenMembers | backend/views.py:65-66 | a present guard adds exactly its one condition, and an absent one adds none |
| Views.KnownWhen | backend/views.py:65-78 | a guarded filter on a field of the model keeps every condition known |
| Views.FirstMissingWhen | backend/views.py:360-361 | the first unknown field after one more guarded filter |
| Views.MachineFiltersKnown | backend/views.py:177-186 | every MachineView filter names a Machine field |
| Views.CompanyFiltersKnown | backend/views.py:65-78 | every CompanyView filter names a Company field |
| Views.ImageFiltersKnown | backend/views.py:214-217 | every ImageView filter names an Image field |
| Views.MeasurementFiltersKnown | backend/views.py:254-275 | every MeasurementView filter names a Measurement field |
| Views.TermoImageFiltersKnown | backend/views.py:311-318 | every TermoImageView filter names a TermoImage field |
| Views.PointFiltersKnown | backend/views.py:354-363 | without `point_type`, every PointView filter names a Point field |
| Views.TendencyFiltersKnown | backend/views.py:401-406 | every TendencyView filter names a Tendency field |
| Views.SampleFiltersKnown | backend/views.py:445-452 | every Espectra and TimeSignal filter names a field of those models |
| Views.NoParametersNoConditions | backend/views.py:19-35 | with no query parameters no view adds a condition |
| Views.CityView | backend/views.py:19-35 | the answer is the base (the user's city, or every city for staff) narrowed by the `name` filter |
| Views.CompanyView | backend/views.py:45-79 | the answer is the base narrowed by the seven filters, `nit` reading the `name` parameter |
| Views.ProfileView | backend/views.py:130-149 | the answer is the base (the user's profile, or every profile) narrowed by `name` then `id` |
| Views.MachineView | backend/views.py:159-187 | the answer is the base narrowed by the five filters; the plain user's base is the company's machines, or DoesNotExist when the company is not stored, and staff get every machine |
| Views.ImageView | backend/views.py:197-218 | the answer is the base narrowed by `id` and `machine`; the plain user's base is the images over the company's machines, or DoesNotExist when the company is not stored, and staff get every image |
| Views.MeasurementView | backend/views.py:228-276 | the answer is the base narrowed by the eleven filters; the plain user's base is the measurements over the company's machines, or DoesNotExist when the company is not stored, and staff get the Image table |
| Views.TermoImageView | backend/views.py:286-319 | the answer is the base narrowed by the four filters; the plain user's base is the thermal images over the company's measurements, or DoesNotExist when the company is not stored, and staff get the Image table |
| Views.PointView | backend/views.py:329-364 | the answer is the base narrowed by the five filters; the plain user's base is the points over the company's measurements, or DoesNotExist when the company is not stored, and staff get every point |
| Views.TendencyView | backend/views.py:374-407 | the answer is the base narrowed by the three filters; the plain user's base is the tendencies over the company's points, or DoesNotExist when the company is not stored, and staff get an AttributeError |
| Views.NarrowSamples | backend/views.py:445-452 | the filter chain shared by EspectraView and TimeSignalView is the narrowing by their filter table |
| Views.EspectraView | backend/views.py:417-453 | the answer is the base narrowed by the four filters; the plain user's base is the spectra over the company's points, or DoesNotExist when the company is not stored, and staff get the Tendency table |
| Views.TimeSignalView | backend/views.py:463-499 | the answer is the base narrowed by the four filters; the plain user's base is the time signals over the company's points, or DoesNotExist when the company is not stored, and staff get the Tendency table |
| Tenancy.NothingOverMatches | backend/views.py:208-210 | the disjunction started from a condition that matches nothing matches exactly the rows referring to a parent |
| Tenancy.SelectNothingOver | backend/views.py:208-211 | filtering by it keeps exactly the rows that refer to a parent, also when there is no parent |
| Tenancy.CompanyStoredExact | backend/views.py:174 | `user.company` is found exactly when a Company row has the user's company id |
| Tenancy.CompanyMachinesExact | backend/views.py:173-174 | `company.machines` is exactly the machines the company owns |
| Tenancy.OwnedImagesExact | backend/views.py:207-211 | with the corrected disjunction, the images are exactly the company's own, for every database |
| Tenancy.OwnedMeasurementsExact | backend/views.py:247-251 | with the corrected disjunction, the measurements are exactly the company's own |
| Tenancy.OwnedTermoImagesExact | backend/views.py:300-308 | with the corrected disjunctions, the thermal images are exactly the company's own |
| Tenancy.OwnedPointsExact | backend/views.py:343-351 | with the corrected disjunctions, the points are exactly the company's own |
| Tenancy.OwnedLeavesExact | backend/views.py:386-398 | with the corrected disjunctions, the leaf rows are exactly the company's own |
| Tenancy.ImagesAsWritten | backend/views.py:207-211 | the images as written are the owned ones, or the whole table when the company has no machine |
| Tenancy.MeasurementsAsWritten | backend/views.py:247-251 | the measurements as written are the owned ones, or the whole table when the company has no machine |
| Tenancy.TermoImagesAsWritten | backend/views.py:300-308 | the thermal images as written are the owned ones, or the whole table when there is no measurement |
| Tenancy.PointsAsWritten | backend/views.py:343-351 | the points as written are the owned ones, or the whole table when there is no measurement |
| Tenancy.LeavesAsWritten | backend/views.py:386-398 | the leaf rows as written are the owned ones, or the whole table when there is no point |
| Tenancy.MachineViewIsolated | backend/views.py:173-187 | for a plain user, MachineView raises exactly when the company is not stored, and then raises DoesNotExist; otherwise it returns only the company's machines |
| Tenancy.ImageViewIsolated | backend/views.py:207-218 | while the company has a machine, ImageView answers exactly when the company is stored, and then with only its images |
| Tenancy.MeasurementViewIsolated | backend/views.py:247-276 | while the company has a machine, MeasurementView answers exactly when the company is stored, and then with only its measurements |
| Tenancy.TermoImageViewIsolated | backend/views.py:300-319 | while the company has a measurement, TermoImageView answers exactly when the company is stored, and then with only its thermal images |
| Tenancy.PointViewIsolated | backend/views.py:343-364 | while the company has a measurement and no `point_type` is given, PointView answers exactly when the company is stored, and then with only its points |
| Tenancy.LeavesIsolated | backend/views.py:386-398 | while the company has a point, the leaf base is exactly the company's leaf rows |
| Tenancy.TendencyViewIsolated | backend/views.py:386-407 | while the company has a point, TendencyView answers exactly when the company is stored, and then with only its tendencies |
| Tenancy.EspectraViewIsolated | backend/views.py:430-453 | while the company has a point, EspectraView answers exactly when the company is stored, and then with only its spectra |
| Tenancy.TimeSignalViewIsolated | backend/views.py:476-499 | while the company has a point, TimeSignalView answers exactly when the company is stored, and then with only its time signals |
| Tenancy.MachinelessCompanySeesAll | backend/views.py:207-211 | a company without machines is answered with every image and every measurement, once its Company row is found |
| Tenancy.MeasurementlessCompanySeesAll | backend/views.py:300-308 | a company whose machines have no measurement sees every thermal image and every point, once its Company row is found |
| Tenancy.PointlessCompanySeesAll | backend/views.py:386-398 | a company whose measurements have no point sees every tendency, spectrum and time signal, once its Company row is found |
| Tenancy.LeakStoreHasCompanyOne | backend/views.py:249 | in the example store, the Company row of company "1" is found |
| Tenancy.LeakStoreMachines | backend/views.py:249 | the example store has exactly one machine, "m" |
| Tenancy.NoMachineOf | backend/views.py:249 | a company that no machine names has no machines |
| Tenancy.LeakStoreHasNoMachineOfCompanyOne | backend/views.py:249 | in the example store, company "1" has no machine |
| Tenancy.LeakStoreAnswer | backend/views.py:247-251 | in the example store, the plain user of company "1", whose Company row is stored, is answered with the whole Measurement table |
| Tenancy.LeakStoreOwnership | backend/views.py:247-251 | the example measurement belongs to company "2" and not to company "1" |
| Tenancy.MachinelessOwnsNothing | backend/views.py:247-251 | a company without machines owns no measurement |
| Tenancy.LeakExample | backend/views.py:247-251 | the plain user of company "1" receives the measurement of company "2" |
| Quirks.FirstMeasurementOnly | backend/views.py:254-275 | no measurement-only parameter is present exactly when there is no first one, and the one found is not an Image field |
| Quirks.ImageFieldNames | backend/views.py:253-275 | Image has `id` and `machine`, and none of the measurement-only fields the MeasurementView filters name |
| Quirks.MeasurementPrefixOnImage | backend/views.py:254-267 | the first seven MeasurementView filters, run on Image, fail at the first measurement-only parameter |
| Quirks.MeasurementFiltersOnImage | backend/views.py:253-275 | on Image, the first failing MeasurementView filter is the first measurement-only parameter |
| Quirks.StaffMeasurementView | backend/views.py:253-275 | for staff, MeasurementView answers with Image rows, or raises a FieldError naming that parameter |
| Quirks.TermoImageFiltersOnImage | backend/views.py:310-318 | on Image, the first failing TermoImageView filter is `image_type`, then `measurement__id` |
| Quirks.StaffTermoImageView | backend/views.py:310-318 | for staff, TermoImageView raises exactly when `image_type` or `measurement` is given, and otherwise returns Image rows |
| Quirks.TendencyFieldNames | backend/views.py:444-452 | Tendency has `id`, `point` and `value`, and no `identifier` |
| Quirks.SampleFiltersOnTendency | backend/views.py:444-452 | on Tendency, the only failing sample filter is `identifier` |
| Quirks.StaffSamplesAreTendencies | backend/views.py:444-452 | for staff, EspectraView and TimeSignalView answer from the Tendency table, and `identifier` raises |
| Quirks.StaffTendencyRaises | backend/views.py:400 | for staff, TendencyView raises AttributeError whatever the parameters |
| Quirks.PointFieldNames | backend/views.py:354-363 | Point has `id`, `number`, `position` and `measurement`, and no `point_typed` |
| Quirks.PointFiltersOnPoint | backend/views.py:354-363 | the only failing PointView filter is `point_typed` |
| Quirks.PointTypeRaises | backend/views.py:360-361 | a `point_type` parameter makes PointView raise FieldError for staff and for a plain user whose company is stored; an unstored company raises DoesNotExist first |
| Quirks.MachineIdentifierConditions | backend/views.py:183-186 | `name` and `machine_type` are compared with the `identifier` parameter's value |
| Quirks.MachineFiltersReadIdentifier | backend/views.py:181-186 | MachineView answers exactly for staff or a stored company, and every machine returned has `name` and `machine_type` equal to the `identifier` value when those are given |
| Quirks.MachineFiltersWithoutIdentifier | backend/views.py:181-186 | MachineView answers exactly for staff or a stored company, and without `identifier` a `name` or `machine_type` parameter then gives an empty answer |
| Quirks.MachineFieldsHaveValues | backend/views.py:184-186 | a machine's name and type are never NULL |
| Quirks.MachineNameValueIgnored | backend/views.py:168-184 | the value of the `name` parameter is never read, only its presence |
| Quirks.CompanyNitReadsName | backend/views.py:53-68 | every company returned has name and nit both equal to the `name` parameter |
| Quirks.CompanyNitParameterIgnored | backend/views.py:54 | a `nit` parameter is never read |
| Quirks.MachineUnknownId | backend/views.py:177-178 | MachineView answers exactly for staff or a stored company, and an `id` that no stored row has then gives an empty answer |
| Quirks.CityViewOfPlainUser | backend/views.py:29-34 | a plain user's base is the city of the company, and a `name` parameter raises AttributeError |
| Quirks.CompanyViewOfPlainUser | backend/views.py:61-78 | a plain user's base is the company itself, and any parameter raises AttributeError |
| Quirks.ProfileViewOfPlainUser | backend/views.py:141-148 | a plain user's base is the profile, and a `name` or `id` parameter raises AttributeError |
| Dates.DaysInMonth | backend/graph.py:113-114 | between 28 and 31 days, and 29 exactly for February of a leap year |
| Dates.Slice | backend/graph.py:113-114 | Python slicing clamps both bounds to the string |
| Dates.Assemble | backend/graph.py:113-114 | `datetime` succeeds exactly when the three parts parse and form a valid date, and returns that date |
| Dates.ParseDate | backend/graph.py:113-114 | every date read is a valid calendar date |
| Dates.PadValue | backend/graph.py:113-114 | a `w`-digit zero-padded number reads back as itself |
| Dates.ValuePad | backend/graph.py:113-114 | a digit string is the zero-padded form of its value |
| Dates.ParseIntDigits | backend/graph.py:113-114 | `int` of a non-empty digit string is its decimal value |
| Dates.SplitDate | backend/graph.py:113-114 | the three slices cut an eight-character value into year, month and day |
| Dates.DateRoundTrip | backend/graph.py:113-114 | every valid date formatted as `YYYYMMDD` is read back as itself |
| Dates.EightDigitDate | backend/graph.py:113-114 | an eight-digit value is read exactly when its parts form a valid date, and the date formats back to it |
| Dates.ShortDateRejected | backend/graph.py:113-114 | a value of six characters or fewer always raises ValueError |
| Chart.PaletteDistinct | backend/graph.py:17-30 | the palette holds twelve different colours |
| Chart.Unique | backend/graph.py:95 | the distinct names hold the same members as the column, each once |
| Chart.FirstIndex | backend/graph.py:55 | `list.index`: the first position holding the value |
| Chart.FirstIndexPrefix | backend/graph.py:55 | the first position is the same in any prefix that contains it |
| Chart.FirstIndexUnique | backend/graph.py:55 | a position holding the value with no earlier copy is the one `list.index` finds |
| Chart.FirstIndexesPrefix | backend/graph.py:95 | values taken from a prefix have their first occurrence inside it, at the same position |
| Chart.UniqueOrderStep | backend/graph.py:95 | reading one more name keeps the distinct names in order of first appearance |
| Chart.UniqueOrder | backend/graph.py:95 | the distinct names are in order of first appearance |
| Chart.UnitOf | backend/graph.py:97-108 | the unit is velocity or acceleration; a failure is IndexError |
| Chart.NumericPrefix | backend/graph.py:98 | the leading characters that `isnumeric` accepts |
| Chart.UnitFollowsPointName | backend/graph.py:97-108 | for a name with a one- or two-digit number, the unit is velocity exactly when the measure letter is `V` |
| Chart.UnitErrors | backend/graph.py:97-108 | the unit rule fails exactly when the first name is too short for the index it reads, or there is no name |
| Chart.MatchingMembers | backend/graph.py:113-117 | `g.loc[g['name'] == label]` holds exactly the rows of that point |
| Chart.DatesOf | backend/graph.py:113-114 | the dates are read exactly when every row's date reads, one per row in order |
| Chart.LevelsOf | backend/graph.py:116-117 | the values of a line are its rows' levels, one per row in order |
| Chart.SeriesErrorPersists | backend/graph.py:111-119 | once a line raises, the chart raises that same exception |
| Chart.SeriesUpToStep | backend/graph.py:111-119 | one more pass of the loop either keeps an earlier exception, raises its own, or appends its line |
| Chart.SeriesUpToExtend | backend/graph.py:111-119 | after the first `n` lines, the next line either raises what the whole loop raises or is appended |
| Chart.PlotLine | backend/graph.py:113-119 | one pass reads the dates (ValueError if one does not parse), then the values, then the colour (IndexError past the palette) |
| Chart.AllLinesEach | backend/graph.py:111-119 | every one of the first `n` labels passing a test, checked label by label, is the same as for all of them at once |
| Chart.LinesReadable | backend/graph.py:113-114 | the first `n` labels all have readable dates exactly when each label's rows have |
| Chart.SeriesUpToReadable | backend/graph.py:111-119 | the first `n` lines are drawn exactly when the palette lasts and every label's dates read; with readable dates the only failure is IndexError |
| Chart.PlotLines | backend/graph.py:111-119 | the loop draws the lines of every label in turn, stopping at the first exception |
| Chart.CreateGraph | backend/graph.py:89-130 | the figure drawn, or the exception raised, is that of the chart's definition |
| Chart.SeriesUpToShape | backend/graph.py:111-119 | the `k`-th line has the `k`-th label, its rows' dates and levels, and the `k`-th colour |
| Chart.LinesOfLabels | backend/graph.py:111-119 | with distinct labels and colours, the lines cover the labels one each, with different points and different colours |
| Chart.SeriesUpToSucceeds | backend/graph.py:111-119 | the lines are drawn exactly when every date reads and the palette lasts; otherwise, with all dates readable, the error is IndexError |
| Chart.FigureLines | backend/graph.py:95-119 | a drawn chart has one line per distinct point, each with its own label and its own colour |
| Chart.FigureLabels | backend/graph.py:122-130 | the title names the last point, and the y-axis shows the unit of the first |
| Chart.TooManyPoints | backend/graph.py:111-119 | more than twelve points with readable dates raise IndexError |
| Chart.BadDateRaises | backend/graph.py:113-114 | an unreadable date on any row makes the chart raise |
| TableImage.Columns | backend/graph.py:38-44 | five column headings, one per column width |
| TableImage.RowColors | backend/graph.py:50-59 | one shading row per table row |
| TableImage.HeaderColors | backend/graph.py:48 | `col_colors` is the heading shade, once per column |
| TableImage.ShadeRow | backend/graph.py:54-58 | each cell of a row gets the shade of the parity of `data.index(rows)` |
| TableImage.RowColorsStep | backend/graph.py:50-59 | the shading of one more row extends the shading of the rows before it |
| TableImage.BoldInjective | backend/graph.py:53 | bolding tells different texts apart |
| TableImage.BoldFirstInjective | backend/graph.py:53 | bolding the first cell keeps two non-empty rows apart exactly when they were apart |
| TableImage.IndexAfterBolding | backend/graph.py:53-55 | `data.index` after the earlier rows were bolded finds the first equal row of the original table |
| TableImage.TableError | backend/graph.py:63-70 | `ax.table` fails exactly when there are no rows, a row differs in width from the first, or the rows are wider than the five column widths, with IndexError or ValueError |
| TableImage.LayoutError | backend/graph.py:63-76 | the table step succeeds exactly when there are rows and every row is five cells wide; no rows give IndexError, and uniform rows narrower than five give the KeyError of the heading loop |
| TableImage.LayoutErrorCases | backend/graph.py:63-76 | ragged rows give ValueError, uniform rows wider than five give IndexError, and uniform rows narrower than five give KeyError |
| TableImage.LayoutErrorOfBolded | backend/graph.py:53-76 | bolding the first cells does not change what the table step raises |
| TableImage.LayOut | backend/graph.py:63-76 | the table call and the heading loop raise exactly the table step's error |
| TableImage.BoldRows | backend/graph.py:50-59 | the loop bolds every row in place up to the first empty row, where it stops, leaves the rest alone, and shades a fully read table by first equal rows |
| TableImage.CreateTableGraph | backend/graph.py:32-79 | succeeds exactly when there are rows and every row is five cells wide; then every first cell is bolded in place and each row is shaded by its first equal row. An empty row raises IndexError with the earlier rows already rewritten. Otherwise all rows are rewritten, and the error is the table step's |
| TableImage.RowColorsShape | backend/graph.py:54-58 | every shading row is as long as its table row, in a single shade |
| TableImage.RowColorsAlternate | backend/graph.py:55-58 | distinct rows alternate white and blue, and a repeated row takes its first copy's shade |
| Report.HexDigit | backend/scripts.py:31-33 | a channel nibble is written as one of the sixteen upper-case hex digits, which reads back as it |
| Report.Hex | backend/scripts.py:31-33 | a colour is written as `#` and six upper-case hex digits, which read back as its red, green and blue channels |
| Report.Upper | backend/scripts.py:126-127 | upper-casing never shortens the text |
| Report.UpperCharFixed | backend/scripts.py:126-127 | an upper-cased character stays fixed when upper-cased again |
| Report.UpperAppend | backend/scripts.py:126-127 | upper-casing works character by character |
| Report.UpperIdempotent | backend/scripts.py:126-127 | upper-casing twice is upper-casing once |
| Report.UpperLeavesNoLowercase | backend/scripts.py:126-127 | no ASCII lower-case letter is left, and ASCII text keeps its length |
| Report.Underscores | backend/scripts.py:46 | the rule line is 91 underscores |
| Report.CreateTableHeader | backend/scripts.py:115-150 | a 2 by 3 grid with the upper-cased date and company, the merged first column and the given widths and heights |
| Report.HeaderLayout | backend/scripts.py:128-148 | the merge covers the blank cell, and the header is 18 cm wide |
| Report.CreateFooterTable | backend/scripts.py:152-166 | a 3 by 1 grid, 18 cm wide, with no fixed heights |
| Report.GraphTable | backend/scripts.py:168-185 | a 2 by 1 grid, 18 cm wide, with the title above the picture |
| Report.PicturesTable | backend/scripts.py:187-208 | a 2 by 2 grid, 18 cm wide, with the two pictures in the second row |
| Report.PicturesFit | backend/scripts.py:122-183 | the sized pictures fit the cells they are placed in |
| Report.TableBlueIsHeaderBlue | backend/scripts.py:33 | the report's table blue is the table image's header colour `#8DB3E2` |
| Report.EntryOf | backend/scripts.py:217-226 | a flowable gives an entry exactly when it is a Heading1 or Heading2 paragraph, at level 0 or 1, with its text and page |
| Report.TocAppend | backend/scripts.py:217-226 | the entries of a longer story are those of its parts, in order |
| Report.TocHeadings | backend/scripts.py:217-226 | every entry has level 0 or 1 and comes from a heading paragraph laid out on its page |
| Report.TocComplete | backend/scripts.py:217-226 | every Heading1 or Heading2 paragraph laid out has its entry, with its level, text and page |
| Report.Document.constructor | backend/scripts.py:59-70 | an empty story and table of contents, a letter page, the footer, and a frame that lies inside the page |
| Report.Document.AfterFlowable | backend/scripts.py:217-226 | appends the flowable's entry to the table of contents and changes nothing else |
| Account.Lower | frontend/src/views/apps/auth/edit/Account.js:81 | `toLowerCase` works character by character and keeps the length |
| Account.NonSpaceRun | frontend/src/views/apps/auth/edit/Account.js:79 | `\S*` takes the longest run of non-space characters |
| Account.TitleCase | frontend/src/views/apps/auth/edit/Account.js:77-84 | the title-cased text has the same length |
| Account.TitleCaseKeepsSpaces | frontend/src/views/apps/auth/edit/Account.js:77-84 | every space stays where it was |
| Account.TitleCaseOfWord | frontend/src/views/apps/auth/edit/Account.js:77-84 | a word gets its first character upper-cased and the rest lower-cased |
| Account.NonSpaceRunOfWord | frontend/src/views/apps/auth/edit/Account.js:79 | a match runs to the end of its word |
| Account.LowerKeepsClasses | frontend/src/views/apps/auth/edit/Account.js:79-81 | lower-casing keeps spaces and word characters what they were, and is idempotent |
| Account.LowerIdempotent | frontend/src/views/apps/auth/edit/Account.js:81 | lower-casing twice is lower-casing once, and spaces stay spaces |
| Account.TitleCaseOfTitledWord | frontend/src/views/apps/auth/edit/Account.js:77-84 | title-casing a title-cased word gives the same word back, ahead of the re-cased rest |
| Account.TitleCaseIdempotent | frontend/src/views/apps/auth/edit/Account.js:77-84 | title-casing twice is title-casing once |
| Account.UserAccountTab.constructor | frontend/src/views/apps/auth/edit/Account.js:26-34 | the state holds the login profile, with no file selected |
| Account.UserAccountTab.HandleSubmit | frontend/src/views/apps/auth/edit/Account.js:36-58 | shows the alert the gate chooses, or sends the profile, the selected file and the access token; nothing else changes |
| Account.UserAccountTab.FileSelected | frontend/src/views/apps/auth/edit/Account.js:60-64 | the selected file is the first of the chosen files, and nothing else changes |
| Account.UserAccountTab.RemovePicture | frontend/src/views/apps/auth/edit/Account.js:70-98 | no file is selected, the input is cleared, and the avatar falls back to the stored picture |
| Account.AlertsAreValidationErrors | frontend/src/views/apps/auth/edit/Account.js:38-53 | every alert is a failed validation, shown, under the same title, with one of the two messages |
| Account.SubmitSendsValidProfile | frontend/src/views/apps/auth/edit/Account.js:44-56 | the profile is sent exactly when each non-empty number passes its validator |
| Account.CellphoneCheckedFirst | frontend/src/views/apps/auth/edit/Account.js:44-48 | with an invalid cellphone, only the cellphone message is shown |
| Account.EmptyNumbersSkipValidation | frontend/src/views/apps/auth/edit/Account.js:44-53 | empty or missing numbers are never given to a validator, and the profile is sent |

## Left out

- UserAPI, RegisterAPI and LoginAPI (backend/views.py:83-120) are left out. They are token authentication and serializer calls, with no logic of their own.
- The serializers, the permission classes, and the `querysets` field of the report are left out. They hold no logic of the core.
- Django's conversion of parameter text to field types is left out. Every field is compared as text, so the ValueError for a non-numeric id does not appear.
- ImageView and the later views iterate `company.machines` without `.all()` (backend/views.py:209, 249, 302, 345, 388, 432 and 478). Real Django raises TypeError for that. MachineView calls `.all()` (backend/views.py:174) and is not affected. The model reads it as iterating the company's machines, as intended.
- `Views.TermoImageView`: the non-staff branch loops over every measurement of the company's machines, as written. Whether TermoImage really has the `machine` field the filter names cannot be checked, because `backend/models.py` is not part of this model.
- `float()` of the chart values is left out. The levels stay text, because floating point is not modelled.
- `str.isnumeric`, `str.upper`, `toLowerCase` and `toUpperCase` are modelled only up to U+00FF. `int()` accepts only ASCII digits. Characters above U+00FF are left out.
- `Report.Upper`: ß becomes "SS", which makes the text longer. The contract states only that the text never gets shorter.
- Rendering is left out: matplotlib and ReportLab drawing, fonts, images, the saved PNG and PDF buffers, page numbering, and the date axis format.
- `TableImage.TableError`: the checks of matplotlib's `Axes.table` follow that library's behaviour. The width is read from the first row, every row and shading row must have it, and each column reads its width. The library's code is not part of this model.
- `TableImage.CreateTableGraph`: each row is a value in an array. Two positions holding the same list object cannot be expressed.
- `machine_specifications_table` (backend/scripts.py:210-215) is left out. It calls `Table(None, ...)` and is never used.
- `write_pdf` and `build_doc` (multiBuild) are left out. `_header_footer_layout`, `_footer_layout` and `_empty_layout` are left out too, because they only save and restore the canvas state.
- The account tab's `onChange` handlers, `fileUploadHandler` (a DOM click), `preventDefault` and the JSX rendering are left out. Only the avatar source (Account.js:95-98) and the name display through `toTitleCase` are modelled.
- The bodies of the phone validators are not part of this model. They are parameters.
- `Quirks.PointTypeRaises`: relies on Point having no `point_typed` field. That field set is assumed, because `backend/models.py` is not part of this model.
- `Quirks.PointFiltersOnPoint`: relies on the assumed Point field set, in which `point_typed` is missing and the other four PointView filters are present.
- `Quirks.StaffMeasurementView`: relies on the assumed Image field set, which holds only `id` and `machine`. A real Image model with more fields would let more of the MeasurementView filters through.
- `Quirks.StaffTermoImageView`: relies on the assumed Image field set, which has no `image_type` and no `measurement`.
- `Quirks.SampleFiltersOnTendency`: relies on the assumed Tendency field set, which has no `identifier`.
- A user whose company key is NULL is left out. `User.company` is always an id, so the AttributeError of `None.machines` does not appear. A key with no Company row gives DoesNotExist.
- `Chart.BadDateRaises`: states only that the chart raises. An earlier point past the twelfth colour can raise IndexError before the bad date is reached.

## Findings

| source | as written | input that shows it | evidently intended | confidence | as-written member | corrected member |
|---|---|---|---|---|---|---|
| backend/views.py:247-251 (also 207-211, 300-308, 343-351, 386-398, 430-442, 476-488) | the disjunction starts from `Q()`, which matches every row, so a company without machines filters by the empty `Q()` and sees every row. As written, line 249 iterates the manager `company.machines` without `.all()` and raises TypeError first; the leak appears once the machines are iterated as intended | a store holding companies "1" and "2", where company "2" owns machine "m" with measurement "e" and company "1" has no machine: the plain user of company "1", whose Company row is stored, asks MeasurementView with no parameters and receives "e" | start from a condition that matches nothing (`Q(pk__in=[])`), so the user sees only the company's own rows | not executed | Tenancy.LeakExample | Tenancy.OwnedMeasurementsExact |
