# GenomeScale in Dafny

A verified model of the genome scale of a visualization library for genomic data
(`src/scales/GenomeScale.js`). The scale describes the domain of a genome-coordinate
axis laid out chromosome by chromosome. It holds:

- a fixed reference table of the 25 human chromosomes (1 to 22, X, Y, M) in display order, with the length in base pairs of each;
- parallel lists of chromosome names and `[0, length]` domains, plus "filtered" copies of both, all set when the scale is built;
- accessors for one chromosome's domain and for all domains;
- each chromosome's share of the total length, for the full and for the filtered lists;
- a formatter that writes a position as `chr<chromosome>:<position>`.

Modules, one per concern of that file:

- `Wrappers` (`wrappers.dfy`): `Option` for JavaScript's `undefined` and `Result` for a thrown exception.
- `JsArrays` (`js_arrays.dfy`): `Array.prototype.findIndex` and reading an element by index, the two JavaScript operations the lookups use.
- `Spans` (`spans.dfy`): the domain tuple, the cumulative span (the `reduce`), the ratios (the `map`) and the laws they obey over exact reals.
- `ReferenceTable` (`reference_table.dfy`): `CHROMOSOMES` and `CHROMOSOME_LENGTHS`, with their consistency facts and the genome's total length.
- `HumanFormat` (`human_format.dfy`): the decimal form of an integer, and a parser for labels. Format and parse are proved inverse in both directions: a label reads back as its chromosome and position, and the only string that reads back as them is that label.
- `Scales` (`genome_scale.dfy`): class `GenomeScale`. Its `const` fields hold the id, the name, the chromosome lists and the domain lists. No method of the source changes these fields after construction. An object invariant `Valid()` covers both layouts.

Facts about the code that shape the model:

- The 25 lengths in the table add up to 3095693983 (`ReferenceTable.ReferenceTotal`).
- A domain is the two-element array `[0, length]`.
- With the corrected lookup, an absent name gives index -1, and `this._domains[-1]` is `undefined` (`None`). As written, every call to `getDomain`/`getDomainFiltered` throws (see "## Findings").
- No operation in the code filters the scale, and none guards the ratio division against a zero sum, so the model has neither.
- The lookups `getDomain`/`getDomainFiltered` are modelled as their documentation describes. See "## Findings".

## Model

| member | source | states |
|---|---|---|
| `ReferenceTable.ChromosomesDistinct` | src/scales/GenomeScale.js:5-31 | the chromosome list has 25 entries and no identifier appears twice |
| `ReferenceTable.LengthsKeyedByChromosomes` | src/scales/GenomeScale.js:33-59 | the length table has an entry for exactly the listed chromosomes |
| `ReferenceTable.LengthsPositive` | src/scales/GenomeScale.js:33-59 | every chromosome length in the table is strictly positive |
| `ReferenceTable.ReferenceDomains` | src/scales/GenomeScale.js:75 | the constructor's domains: one per listed chromosome, in display order, each `[0, its length]` with a positive upper bound |
| `ReferenceTable.ReferenceDomainsListed` | src/scales/GenomeScale.js:33-59 | the 25 reference domains, written out value by value |
| `ReferenceTable.ReferenceTotal` | src/scales/GenomeScale.js:129 | the cumulative span of a freshly built scale is 3095693983 base pairs |
| `ReferenceTable.ReferenceRatioOfChromosome1` | src/scales/GenomeScale.js:128-131 | on a freshly built scale, chromosome 1's ratio is 249250621 / 3095693983 |
| `Spans.CumulativeSpan` | src/scales/GenomeScale.js:129 | the `reduce`: the left fold of the widths starting from 0, never negative when no width is; its laws are `CumulativeSpanAppend` and `CumulativeSpanPositive` |
| `Spans.CumulativeSpanAppend` | src/scales/GenomeScale.js:129 | the summed widths of a concatenation are the sum of the parts' summed widths |
| `Spans.CumulativeSpanPositive` | src/scales/GenomeScale.js:129 | when all widths are positive, the divisor is 0 only for an empty list and positive otherwise |
| `Spans.SpanWithinCumulative` | src/scales/GenomeScale.js:129 | when all widths are positive, each one is positive and at most the summed width |
| `Spans.Ratios` | src/scales/GenomeScale.js:130 | one ratio per domain; ratio i times the summed width equals domain i's width |
| `Spans.SumScaled` | src/scales/GenomeScale.js:129-130 | dividing each width by a constant and summing gives the summed width divided by that constant |
| `Spans.RatiosSumToOne` | src/scales/GenomeScale.js:128-131 | the ratios add up to exactly 1 whenever the summed width is non-zero |
| `Spans.RatiosInUnitInterval` | src/scales/GenomeScale.js:128-131 | over positive-width domains the division is defined and every ratio lies in (0, 1] |
| `Spans.RatiosProportional` | src/scales/GenomeScale.js:130 | any two ratios stand in the same proportion as their domains' widths |
| `JsArrays.FindIndex` | src/scales/GenomeScale.js:100 | `findIndex` with a callback: the first index the callback accepts, or -1 exactly when it accepts none |
| `HumanFormat.NaturalDigits` | src/scales/GenomeScale.js:150 | a natural number's string form is a non-empty string of decimal digits with no leading zero |
| `HumanFormat.DecimalString` | src/scales/GenomeScale.js:150 | a position's string form never contains the `:` separator |
| `HumanFormat.NaturalDigitsRoundTrip` | src/scales/GenomeScale.js:150 | reading back a natural number's digits gives that number |
| `HumanFormat.DecimalRoundTrip` | src/scales/GenomeScale.js:150 | reading back any integer's string form gives that integer |
| `HumanFormat.NaturalDigitsOfValue` | src/scales/GenomeScale.js:150 | canonical digit strings (no leading zero) are exactly the strings of the numbers they denote |
| `HumanFormat.ParseDecimalCanonical` | src/scales/GenomeScale.js:150 | the only string read as an integer is that integer's decimal form (no leading zeros, no "-0") |
| `HumanFormat.ParseHumanInverts` | src/scales/GenomeScale.js:148-151 | the label built from any chromosome (even one containing `:`) and any position reads back as exactly that pair |
| `HumanFormat.ParseHumanCanonical` | src/scales/GenomeScale.js:148-151 | any string read as a chromosome and a position is exactly `"chr" + chromosome + ":" + decimal(position)` |
| `HumanFormat.LabelsCanonical` | src/scales/GenomeScale.js:148-151 | a string reads back as a chromosome and position if and only if it is the label built from them |
| `Scales.IndexOfChromosome` | src/scales/GenomeScale.js:100 | the intended lookup: the index of the first equal name, or -1 exactly when the name is absent |
| `Scales.LayoutDomainsPositive` | src/scales/GenomeScale.js:72-76 | in a well-formed layout every domain has lower bound 0 and a positive upper bound |
| `Scales.LayoutRatios` | src/scales/GenomeScale.js:128-139 | over a well-formed layout the ratios are defined and lie in (0, 1]; they sum to exactly 1 when the layout is non-empty |
| `Scales.GenomeScale.constructor` | src/scales/GenomeScale.js:68-93 | the getters `Id`/`Name` return the arguments; the chromosome list is the reference list with its reference domains; the filtered lists equal the full ones, and so do their ratios; the invariant holds |
| `Scales.GenomeScale.GetDomain` | src/scales/GenomeScale.js:95-101 | defined exactly for held chromosomes; returns the domain at that chromosome's index, `[0, its table length]` (corrected lookup) |
| `Scales.GenomeScale.GetDomains` | src/scales/GenomeScale.js:103-108 | returns one domain per chromosome, parallel to the names: entry i is `[0, length of chromosome i]`, with a positive upper bound |
| `Scales.GenomeScale.GetDomainFiltered` | src/scales/GenomeScale.js:110-116 | as `GetDomain`, over the filtered lists (corrected lookup) |
| `Scales.GenomeScale.GetDomainsFiltered` | src/scales/GenomeScale.js:118-123 | returns one domain per filtered chromosome, parallel to the filtered names: entry i is `[0, length of filtered chromosome i]`, with a positive upper bound |
| `Scales.GenomeScale.GetChromosomeRatios` | src/scales/GenomeScale.js:125-131 | one ratio per domain, equal to the `Ratios` law; each in (0, 1]; sum exactly 1 when the scale holds a chromosome |
| `Scales.GenomeScale.GetChromosomeRatiosFiltered` | src/scales/GenomeScale.js:133-139 | the same law over the filtered domains |
| `Scales.GenomeScale.ToHuman` | src/scales/GenomeScale.js:142-151 | the label starts with `chr` and is the one string that parses back as exactly this chromosome and position, so it is `"chr" + chromosome + ":" + decimal(position)` and nothing else |
| `Scales.GenomeScale.GetDomainAsWritten` | src/scales/GenomeScale.js:99-101 | `getDomain` as written throws a TypeError for every argument |
| `Scales.GenomeScale.GetDomainFilteredAsWritten` | src/scales/GenomeScale.js:114-116 | `getDomainFiltered` as written throws a TypeError for every argument |
| `Scales.LookupAsWrittenThrows` | src/scales/GenomeScale.js:95-116 | for a chromosome the scale holds, both lookups as written throw, while the corrected lookups return its domain |
| `Scales.FilteredDomainWithinDomain` | src/scales/GenomeScale.js:110-116 | a filtered chromosome's domain lies within its unfiltered domain |

## Findings

| source | as written | input that shows it | evidently intended | confidence | as-written member | corrected member |
|---|---|---|---|---|---|---|
| src/scales/GenomeScale.js:100 | `this._chromosomes.findIndex(chromosome)` passes the name string as the callback, so `findIndex` throws a TypeError | `getDomain('1')` on any scale | the domain at the index of the first name equal to `chromosome` | high; not executed | `Scales.GenomeScale.GetDomainAsWritten` | `Scales.GenomeScale.GetDomain` |
| src/scales/GenomeScale.js:115 | the same call on the filtered list | `getDomainFiltered('1')` on any scale | the filtered domain at the index of the first equal filtered name | high; not executed | `Scales.GenomeScale.GetDomainFilteredAsWritten` | `Scales.GenomeScale.GetDomainFiltered` |

`Scales.LookupAsWrittenThrows` shows the gap for every chromosome the scale holds. The rest of the model uses the corrected lookups.

## Left out

- The update notification (`onUpdate`, `emitUpdate`, lines 1-3, 78 and 153-167) is left out. It registers callbacks with the `d3-dispatch` library, which is not part of this model, and holds no logic of its own.
- IEEE floating-point rounding in the ratio division is left out. Ratios are exact reals, so "they sum to 1" holds exactly here. In JavaScript it holds only up to rounding.
- Spans.Ratios: requires the summed width to be non-zero when the list is non-empty. JavaScript would yield `NaN` or `Infinity` there. A constructed scale never reaches that case (`Scales.LayoutRatios`).
- Object sharing is not modelled. In the source, `_chromosomes` is the module-level `CHROMOSOMES` array and `_domainsFiltered` is a shallow copy that shares the inner tuples. Here all of them are immutable values, so aliasing cannot be observed.
- Scales.GenomeScale.ToHuman: the position is an integer printed in full. JavaScript prints numbers of magnitude 10^21 or more in exponent form, and prints non-integer positions with a fraction; neither is modelled. The thousands separators mentioned in a TODO are not implemented in the source either.
- `id` and `name` are modelled as strings, as their doc comments say. JavaScript accepts any value there.
- A lookup of `CHROMOSOME_LENGTHS` with a key outside the table cannot happen, because the constructor only looks up listed chromosomes.
- No filtering operation exists in the code. `Valid()` only states what a filter would have to preserve: a well-formed filtered layout whose chromosomes are all in the full list.
- `src/index.js` only imports and re-exports components. The other scales, the history stack and the data container are not part of this model, because only their names appear.
