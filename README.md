# Hydraulic-fracturing calculators and tender scoring, modelled in Dafny

The repository is a Streamlit page with three oilfield calculators (pipe
pressure drop, sand fill in a casing/tubing annulus, sand plug in an open
hole) and a small tender-document analyser. Each calculator takes a unit
system (SI or Imperial), converts Imperial inputs to internal units, runs a
short formula chain and converts the result back for display. The
calculators exist twice, in two diverging copies:

- `tendanal.py` converts inches with `/ 39.37`, reports pressure in psi with
  `/ 6894.76` and volumes in barrels with `* 6.28981`, and guards every
  division that could meet a zero so that an empty form yields zeros;
- `app.py` converts inches to feet with `/ 12`, reports pressure with `/ 144`
  and volumes with `/ 5.615`, and does not guard its divisions by area,
  viscosity and diameter (Python raises `ZeroDivisionError` there).

`tendanal.py` also builds a context excerpt around each query match and
scores the document by keyword counts with a three-way verdict.

Files:

- `hydraulics.dfy` (module `Hydraulics`): the unit-system switch, the input
  and result records, and what both copies compute identically: flow-rate and
  viscosity conversions, circle and annulus areas, and the three-way friction
  factor.
- `guarded.dfy` (module `Guarded`): the `tendanal.py` calculators.
- `unguarded.dfy` (module `Unguarded`): the `app.py` calculators, and lemmas
  comparing them with `Guarded`.
- `tender.dfy` (module `Tender`): excerpt windows and keyword scoring. These
  are imperative in the source (two accumulating loops) and are methods with
  loop invariants here, proved against the functions `Excerpt` and `Total`.

Quantities are `real`. `math.pi` is the constant `Pi` (its printed value; the
proofs use only that it is positive). `x ** 0.25` is a function parameter
`root4` of which only positivity on positive arguments is assumed
(`QuarterPower`). Regular-expression matching is outside the model: match
spans arrive as a sequence of `Match` values and per-keyword counts as a
function `Counter`.

The model follows the code as written, including where its units do not add
up: in `tendanal.py` the SI pumping time is `volume / pump_rate` with no
division by 60 although it is labelled in minutes (`app.py` divides by 60;
`Unguarded.SandPlugSixtyFoldInSI` states the factor), the Imperial pumping
time divides barrels by a rate already converted to m³/s, the Imperial pipe
length is used in feet beside a diameter in metres, and `* 6.28981` (bbl per
m³) and `/ 5.615` (ft³ per bbl) are applied to volumes in different units.
`Unguarded.SandFillDisagreesInImperial` exhibits one input on which the two
copies display different volumes.

## Model

| member | source | states |
|---|---|---|
| `Hydraulics.FlowRateToInternal` | tendanal.py:170 | Imperial bbl/min becomes `q * 5.615 / 60` (stated as `r * 60 == q * 5.615`), SI is unchanged, and sign and zero are preserved |
| `Hydraulics.ViscosityToInternal` | tendanal.py:172 | Imperial cP is divided by 1000 (`r * 1000 == mu`), SI is unchanged, sign and zero preserved |
| `Hydraulics.CircleArea` | tendanal.py:174 | `pi (d/2)^2` is never negative and is positive exactly when the diameter is nonzero, so the area guard is the diameter guard |
| `Hydraulics.AnnulusArea` | tendanal.py:207 | for non-negative diameters the annulus area is positive iff casing > tubing, zero iff they are equal, negative iff tubing > casing (no validation) |
| `Hydraulics.AnnulusIsDifference` | tendanal.py:207 | the annulus area equals the casing circle's area minus the tubing circle's area |
| `Hydraulics.CircleAreaMonotone` | tendanal.py:174 | a larger non-negative diameter never gives a smaller area |
| `Hydraulics.FrictionFactor` | tendanal.py:178-183 | 0 at Re = 0; `f * Re == 64` for nonzero Re below 2300; positive with `f * Re^0.25 == 0.079` from 2300 on; never negative for Re >= 0 |
| `Hydraulics.FrictionBoundaryIsTurbulent` | tendanal.py:180-183 | Re = 2300 takes the Blasius branch and Re = 2299.999 the laminar one |
| `Guarded.DiameterToSI` | tendanal.py:171 | Imperial inches are divided by 39.37 (`r * 39.37 == d`), SI unchanged, sign and zero preserved |
| `Guarded.VolumeToDisplay` | tendanal.py:211 | Imperial volume is m³ times 6.28981 bbl, SI unchanged, sign preserved |
| `Guarded.PressureToDisplay` | tendanal.py:187-188 | Imperial drop is Pa divided by 6894.76 (`r * 6894.76 == p`), SI unchanged, sign and zero preserved |
| `Guarded.PressureInputToSI` | tendanal.py:168-172 | flow `* 5.615 / 60`, diameter `/ 39.37`, viscosity `/ 1000`; length and density untouched; SI leaves every input unchanged; non-negativity and zeros are preserved |
| `Guarded.Velocity` | tendanal.py:175 | 0 when the area is 0, otherwise `v * area == q`; non-negative for non-negative inputs |
| `Guarded.Reynolds` | tendanal.py:176 | 0 when the viscosity is 0, otherwise `Re * mu == rho v d`; non-negative for non-negative inputs |
| `Guarded.DarcyDrop` | tendanal.py:185 | 0 when the diameter, friction factor or velocity is 0; non-negative for non-negative inputs |
| `Guarded.PressureDrop` | tendanal.py:167-191 | zero viscosity, zero diameter or zero flow each give drop 0 and Reynolds 0 without a fault; non-negative inputs give a non-negative drop and Reynolds number |
| `Guarded.ImperialPressureIsConvertedSI` | tendanal.py:187-191 | Imperial mode is SI mode on the converted inputs with the drop divided by 6894.76 and the Reynolds number not converted |
| `Guarded.ReynoldsFromFlow` | tendanal.py:174-176 | with nonzero diameter and viscosity, `Re * mu * A == rho * Q * d` |
| `Guarded.LaminarIsPoiseuille` | tendanal.py:180-185 | for 0 < Re < 2300 the Darcy-Weisbach drop times d² equals 32 mu L v (Hagen-Poiseuille) |
| `Guarded.SandFill` | tendanal.py:202-218 | mass is the shown volume times the concentration in both systems; equal casing and tubing give zero; for positive depth the volume is negative exactly when tubing OD exceeds casing ID |
| `Guarded.SandFillIsBoreLessTubing` | tendanal.py:207-208 | the SI sand volume is (casing circle area − tubing circle area) × depth |
| `Guarded.ImperialFillIsConvertedSI` | tendanal.py:203-211 | the Imperial volume is the SI volume of the diameters divided by 39.37, times 6.28981 |
| `Guarded.SandPlug` | tendanal.py:229-249 | mass is shown volume times concentration; pumping time is 0 when the pump rate is <= 0, else time × converted rate == shown volume (no /60); zero diameter or length gives all zeros; non-negative inputs give non-negative results |
| `Guarded.ImperialPlugIsConvertedSI` | tendanal.py:230-240 | the Imperial volume and pumping time are the SI ones on the converted diameter and rate, each times 6.28981 |
| `Unguarded.DiameterToInternal` | app.py:46 | Imperial inches are divided by 12 (`r * 12 == d`), SI unchanged, sign and zero preserved |
| `Unguarded.VolumeToDisplay` | app.py:89 | Imperial volume is divided by 5.615 (`r * 5.615 == v`), SI unchanged, sign preserved |
| `Unguarded.PressureToDisplay` | app.py:62-63 | Imperial drop is divided by 144 (`r * 144 == p`), SI unchanged, sign and zero preserved |
| `Unguarded.PressureInputToInternal` | app.py:43-47 | flow `* 5.615 / 60`, diameter `/ 12`, viscosity `/ 1000`; length and density untouched; SI leaves every input unchanged |
| `Unguarded.Velocity` | app.py:50 | needs a nonzero area; `v * area == q`; positive flow over positive area is positive |
| `Unguarded.Reynolds` | app.py:51 | needs a nonzero viscosity; `Re * mu == rho v d`; sign of the result for non-negative inputs |
| `Unguarded.DarcyDrop` | app.py:60 | needs a nonzero diameter; 0 when friction factor or velocity is 0; non-negative for non-negative inputs |
| `Unguarded.PressureDrop` | app.py:42-66 | needs nonzero diameter and viscosity (else ZeroDivisionError); zero flow gives zeros; non-negative inputs give non-negative results, and positive flow and density a positive Reynolds number |
| `Unguarded.ImperialPressureIsConvertedSI` | app.py:62-63 | Imperial mode is SI mode on the converted inputs with the drop divided by 144 and Reynolds unchanged |
| `Unguarded.PressureDropAgreesInSI` | app.py:49-60 | in SI mode, wherever app.py does not fault, its drop and Reynolds number equal those of tendanal.py |
| `Unguarded.SandFill` | app.py:79-96 | mass is shown volume times concentration; equal diameters give zero; for positive depth the volume is negative exactly when tubing OD exceeds casing ID |
| `Unguarded.SandFillAgreesInSI` | app.py:84-94 | in SI mode the two sand-fill calculators agree |
| `Unguarded.SandFillDisagreesInImperial` | app.py:80-90 | in Imperial mode the two copies display different volumes for casing 12 in, no tubing, depth 1 |
| `Unguarded.SandFillImperialRatio` | app.py:80-89 | for every input, app.py's Imperial sand volume times 144 × 5.615 × 6.28981 equals tendanal.py's times 39.37², so the two agree only at zero |
| `Unguarded.ImperialFillIsConvertedSI` | app.py:80-89 | the Imperial volume is the SI volume on diameters divided by 12, divided by 5.615 |
| `Unguarded.SandPlug` | app.py:109-129 | pumping time is 0 when the pump rate is <= 0, else time × converted rate × 60 == shown volume; mass is shown volume times concentration; zero diameter or length gives zeros; non-negative inputs give non-negative results |
| `Unguarded.ImperialPlugIsConvertedSI` | app.py:110-120 | the Imperial volume and pumping time are the SI ones on the diameter divided by 12 and the rate times 5.615 / 60, each divided by 5.615 |
| `Unguarded.SandPlugSixtyFoldInSI` | app.py:124-126 | in SI mode volumes and masses agree with tendanal.py and tendanal.py's pumping time is 60 times app.py's |
| `Tender.ExcerptWindow` | tendanal.py:88-89 | for a span inside the text, 0 <= start <= match start <= match end <= end <= length, each side widened by at most 100 and by exactly 100 unless clamped to the text |
| `Tender.Flatten` | tendanal.py:90 | same length, every newline becomes a space, every other character is kept, no newline remains |
| `Tender.Excerpt` | tendanal.py:88-90 | the excerpt is exactly the window of the whole text with newlines turned into spaces, at most the match plus 200 characters long, with the flattened match at its offset in the window |
| `Tender.CollectExcerpts` | tendanal.py:86-91 | the loop yields exactly one excerpt per match, in match order, each equal to `Excerpt` |
| `Tender.Shown` | tendanal.py:93 | a prefix of the excerpts of length at most 5, the whole list when it has at most 5 |
| `Tender.DisplayedExcerpts` | tendanal.py:84-94 | min(5, number of matches) excerpts are displayed, the k-th being the excerpt of the k-th match |
| `Tender.TotalAppend` | tendanal.py:104-108 | the keyword total over a concatenated list is the sum of the totals |
| `Tender.TotalBounds` | tendanal.py:104-108 | every keyword's count is at most the total, and the total is 0 iff no keyword occurs |
| `Tender.ScoreKeywords` | tendanal.py:104-108 | the accumulating loop returns the sum of the per-keyword counts |
| `Tender.Classify` | tendanal.py:125-130 | favourable iff total > 10, pros-and-cons iff 1 <= total <= 10, risky iff total <= 0 (exactly one applies) |
| `Tender.ClassifyMonotone` | tendanal.py:125-130 | a higher total never gives a worse verdict |
| `Tender.ScoreTender` | tendanal.py:110-130 | ease, cost and risk are the totals over the fixed keyword lists, overall = ease + cost − risk, the verdict classifies it; with no ease or cost keyword the verdict is risky |

## Left out

- The Streamlit page: forms, radio buttons, `st.success`/`st.info` rendering, `:.2f`/`:.0f` formatting and unit labels; it is presentation only.
- File upload and text extraction from PDF, Word and Excel (`extract_text_pdf`, `extract_text_word`, `extract_text_excel`); they are I/O through PyPDF2, docx2txt and pandas.
- Regular-expression search, highlighting and word-boundary matching; spans and counts are inputs of the model, and the model assumes `findall` and `finditer` see the same matches.
- tenderanalyser.py is not part of this model; it repeats the extraction code.
- The pipe roughness and friction-method inputs: they are read by the form and never used.
- IEEE-754 rounding: values are exact reals, so for example an area that underflows to 0.0 for a tiny nonzero diameter is not modelled.
- Hydraulics.FrictionFactor: the Blasius value `0.079 / Re ** 0.25` is stated only through `f * root4(Re) == 0.079` with `root4` positive on positive arguments; the actual fourth root is not modelled.
- Hydraulics.CircleArea: `math.pi` is its printed decimal value; nothing beyond its positivity is used.
- Unguarded.PressureDrop: the fault on a zero area, viscosity or diameter is a precondition rather than a modelled exception, since the page just shows Python's traceback.
