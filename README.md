# bag2_analog generators and the series-LDO sizing search, in Dafny

This project models two parts of the `bag2_analog` analog generator library.

**The series low-dropout regulator sizing search** (`scripts_dsn/regulator_ldo_series.py`).
The search sweeps the gate voltage of the series pass device. At each point it does four things:
- it sizes the series device from a characterisation table (`dsn_fet`);
- it designs an error amplifier: two bias-point sweeps, finger and multiplier sizing of the mirror, tail, load and input devices, and a three-way acceptance policy (`dsn_amp`);
- it keeps the design that draws the least amplifier current, tightening the current budget each time (`meet_spec`, `op_compare`);
- it finally turns the kept design into schematic parameters (`get_sch_params`).

The model splits this code into four modules:
- `LdoSizing` (ldo_sizing.dfy) holds operating points, `resize_op`, the finger scheme, `dsn_fet` and the tail finger count.
- `LdoMetrics` (ldo_metrics.dfy) holds the post-processing of the small-signal analyses.
- `LdoAmp` (ldo_amp.dfy) holds `dsn_amp`.
- `LdoSearch` (ldo_search.dfy) holds `meet_spec`, `op_compare` and `get_sch_params`.

**The schematic generators** (`BagModules/bag2_analog/*.py`). Each generator computes:
- the net and bus names it hands to the schematic framework;
- the instance arrays, the terminal rewiring and the pin edits.

Each generator is one module:

| module | generator |
|---|---|
| `CascodeConn` | `bus_list`, the DA pin test and the self-tied drain pins of `cascode_conn` |
| `DacRladder` | `dac_rladder` |
| `ResTrimSeries` | `res_trim_series` |
| `MuxBinCore` | `mux_bin_core` |
| `MuxBinSel` | `mux_bin_sel` |
| `MuxOnehotSel` | `mux_onehot_sel` |
| `Nmos4Astack` | `nmos4_astack` |
| `RladderCore` | `rladder_core` |
| `ResMultistrip` | `res_multistrip` |
| `InvStarved` | `inv_starved` |

Three shared modules support them:
- **Outcomes** holds `Option`, `Result` and the Python exceptions the code can raise, as `Fault` values.
- **Numerals** holds the decimal rendering of f-strings with its parser, `1 << n` and `sum`.
- **Nets** holds net names.

A net is a `Net` term. `Render` gives the exact text the source formats, such as `mid<5:0>` or `<*2>bpb<1>`. `Bits` gives the single-bit signals that text stands for under the schematic bus convention:
- a range lists its bits from the high index down;
- `<*n>` repeats a net n times;
- a comma list concatenates.

When an array of instances is wired to a bus, instance position p takes bit p. Wiring properties ("the switch spans exactly its resistor") are stated on these bits.

Python exceptions are `Err` results, not preconditions:
- `KeyError`, `ZeroDivisionError` and `AssertionError`;
- `UnboundLocalError`, when `Vstar_in` is read after a sweep that found nothing;
- the `TypeError` from unpacking a bare `inf`;
- the `ValueError` of a negative shift.

Code that loops or updates state step by step is a Dafny `method` with loop invariants:
- `bus_list`;
- the list-building loops of `res_trim_series` and `nmos4_astack`;
- the bias sweeps, the decoupling sweep and the tail-growth loop of `dsn_amp`;
- the outer loop of `meet_spec`.

Everything else is a function. Table queries, the small-signal analyses and the numpy grids are function-valued parameters (`Tables`, `Evaluator`, `Grids`). Reals are exact.

Some behaviour of the code differs from what its names suggest. The model follows the code:
- **The finger scheme does not build the requested width.** In the code, `nf = 2*int(m)` fingers of multiplier `m % 1 + 1` give `nf*wm` unit widths. That differs from the `2m` asked for by `2*frac(m)*(floor(m)-1)`: it falls short for fractional ratios below 1 and exceeds it for fractional ratios above 2. The two agree only for whole ratios and for ratios in [1, 2) (`LdoSizing.SplitOvershoot`, `LdoSizing.SplitExactIff`).
- **`op_compare` keeps the new design on a tie, not the first one found.** Within `meet_spec` a tie cannot occur: every accepted design draws strictly less than the budget, which is the current of the record.
- **The load pair's operating point is rescaled by the tail multiplier `wm_tail`, not `wm_load`.** This happens at lines 172 and 227. The model does the same.
- **The early break of the decoupling sweep can never fire.** Inside that sweep the supply rejection is evaluated with zero decoupling capacitance (line 201), so its bandwidth does not depend on the swept value (`LdoAmp.DecapSweepsWholeGrid`).
- **The DA pin of `cascode_conn` is always removed** (line 93). `DNA_conn[-1]` is a single character, so it never equals `'DA'`. The test instead raises `IndexError` when a drain connection list joins to the empty string (`CascodeConn.DaTestOutcome`).
- **The static error is not recomputed while the tail grows.** The grown design reports the `dc_err` of the sized amplifier.

## Model

| member | source | states |
|---|---|---|
| LdoSizing.ResizeOp | scripts_dsn/regulator_ldo_series.py:56-63 | the resized operating point has exactly the keys of the original |
| LdoSizing.ResizeScales | scripts_dsn/regulator_ldo_series.py:56-63 | keys starting with `v` are copied; every other value is multiplied by `wm` (so `ibias` and `cgg` scale and `vstar` stays) |
| LdoSizing.ResizeCompose | scripts_dsn/regulator_ldo_series.py:56-63 | resizing by `a` then by `b` equals resizing once by `a*b` |
| LdoSizing.ResizeIdentity | scripts_dsn/regulator_ldo_series.py:56-63 | resizing by 1 leaves the operating point unchanged |
| LdoSizing.Trunc | scripts_dsn/regulator_ldo_series.py:88 | Python `int()` on a float truncates toward zero: within one unit below a non-negative argument, above a negative one |
| LdoSizing.FracPart | scripts_dsn/regulator_ldo_series.py:87 | Python `x % 1` lies in [0, 1) |
| LdoSizing.Split | scripts_dsn/regulator_ldo_series.py:86-88 | the scheme gives an even finger count and a multiplier in [1, 2); for m >= 0: nf >= 2 iff m >= 1, and nf <= 2m < nf + 2 |
| LdoSizing.SplitOvershoot | scripts_dsn/regulator_ldo_series.py:86-88 | built width minus asked width is exactly `2*frac(m)*(floor(m)-1)` |
| LdoSizing.SplitExactIff | scripts_dsn/regulator_ldo_series.py:86-88 | the built width equals `2m` iff m is whole or floor(m) = 1 |
| LdoSizing.SeriesBias | scripts_dsn/regulator_ldo_series.py:80-84 | n-type: source at vout, drain at vdd, body at 0; otherwise source at vdd, drain at vout, body at vdd; the query is relative to the source |
| LdoSizing.DsnFet | scripts_dsn/regulator_ldo_series.py:65-90 | zero unit current is a division fault; otherwise the result is even fingers, multiplier in [1,2) and the unit current scaled by the multiplier; with positive unit current: a match iff `iload > 2*ibias`, and `nf*ibias <= iload < (nf+2)*ibias` |
| LdoSizing.SizeFor | scripts_dsn/regulator_ldo_series.py:86-90 | the scheme applied to `iload/(2*ibias)`: a match implies nf >= 2, and the match/fit facts above |
| LdoSizing.MatchedRatio | scripts_dsn/regulator_ldo_series.py:86-90 | `m > 1` is the match flag, and `nf` is the largest even count whose unit current fits the load |
| LdoSizing.TailFingers | scripts_dsn/regulator_ldo_series.py:156 | the tail count is even; half of it carries strictly more than twice each pair's unit current; two fewer would not (minimality); it is at least 2 when a unit current is non-negative |
| LdoSizing.DsnFetExample | scripts_dsn/regulator_ldo_series.py:65-90 | a 2 mA load on 0.5 mA unit current gives a match with 4 fingers at multiplier 1 |
| LdoMetrics.DcError | scripts_dsn/regulator_ldo_series.py:186-187 | `1/(abs(A)+1)` lies in (0, 1], equals 1 iff A = 0, and is the reciprocal of `abs(A)+1` |
| LdoMetrics.DcErrorFalls | scripts_dsn/regulator_ldo_series.py:186-187 | more loop gain gives strictly less static error |
| LdoMetrics.DcErrorBelow | scripts_dsn/regulator_ldo_series.py:187-191 | `dc_err < t` iff `t*(abs(A)+1) > 1` |
| LdoMetrics.LoadReg | scripts_dsn/regulator_ldo_series.py:500-505 | division fault iff vout = 0; otherwise `loadreg*vout = 0.2*iout*transimpedance` |
| LdoMetrics.Psrr | scripts_dsn/regulator_ldo_series.py:413-424 | a bare infinity iff the supply gain is 0; otherwise the decibel rejection and `fbw*2pi` = 3 dB frequency (0 when there is none) |
| LdoMetrics.PsrrBandwidth | scripts_dsn/regulator_ldo_series.py:418-420 | no 3 dB frequency gives bandwidth 0; a non-negative one gives a non-negative bandwidth |
| LdoAmp.ArgminUpTo | scripts_dsn/regulator_ldo_series.py:121-143 | the index kept by a sweep over the first i points lies below i |
| LdoAmp.ArgminIsFirstMinimum | scripts_dsn/regulator_ldo_series.py:121-143 | a sweep keeps an index iff some point is admitted, and the index kept is the first admitted point of least cost (the strict `<` of lines 127 and 139) |
| LdoAmp.FirstArgmin | scripts_dsn/regulator_ldo_series.py:121-143 | the loop keeps exactly what the sweep keeps: found iff some point is admitted, the first admitted point of least cost |
| LdoAmp.InputSweepChoice | scripts_dsn/regulator_ldo_series.py:121-131 | the input sweep finds a point iff some grid point has positive input current; the tail voltage is then the first grid point of least overdrive mismatch, and the operating point the query there; 0 and none otherwise |
| LdoAmp.SweepInput | scripts_dsn/regulator_ldo_series.py:121-131 | the loop returns the input sweep's result, with the first-minimum and found-iff facts above |
| LdoAmp.TailSweepChoice | scripts_dsn/regulator_ldo_series.py:133-143 | the tail sweep finds a point iff some gate-grid point has positive tail current; the gate voltage is then the first point of least squared mismatch sum; 0 and none otherwise |
| LdoAmp.SweepTail | scripts_dsn/regulator_ldo_series.py:133-143 | the loop returns the tail sweep's result, with the first-minimum and found-iff facts above |
| LdoAmp.BiasOf | scripts_dsn/regulator_ldo_series.py:114-143 | the unbound-name fault occurs iff no input point is admitted and the tail grid is non-empty; otherwise both sweeps keep their promises |
| LdoAmp.ChooseBias | scripts_dsn/regulator_ldo_series.py:114-143 | the loops give exactly the bias choice above, fault included |
| LdoAmp.SizeTail | scripts_dsn/regulator_ldo_series.py:153-167 | a missing operating point is a key fault; the early exit happens iff the tail draws more than the budget; otherwise the tail is sized by `TailFingers` within budget and the pairs for half the tail current |
| LdoAmp.Size | scripts_dsn/regulator_ldo_series.py:145-167 | zero mirror current is a division fault; the early `(False, {})` happens iff the mirror has no fingers or the tail draws more than the budget; within the budget the only fault is a zero load unit current; a result satisfies the whole sizing predicate |
| LdoAmp.SizedReady | scripts_dsn/regulator_ldo_series.py:145-167 | a successful sizing leaves an even tail of at least two fingers with positive unit current |
| LdoAmp.RegrownTail | scripts_dsn/regulator_ldo_series.py:169-184 | with an even tail count every device is sized by the scheme, and each tail finger carries the tail unit current |
| LdoAmp.Measure | scripts_dsn/regulator_ldo_series.py:186-190 | fails iff vout = 0 (division fault) or the supply gain is 0 (unpacking fault) |
| LdoAmp.DecapFrom | scripts_dsn/regulator_ldo_series.py:199-209 | a hit lies in the part of the grid still to visit |
| LdoAmp.DecapFromFirst | scripts_dsn/regulator_ldo_series.py:199-209 | a hit is the first capacitance meeting every target; a miss means none does; the sweep breaks only on short bandwidth, with that point's metrics, and otherwise ends with the last point's |
| LdoAmp.DecapSearch | scripts_dsn/regulator_ldo_series.py:196-209 | the loop gives exactly the sweep's hit or miss, so a hit is the first capacitance meeting every target and a miss means none does |
| LdoAmp.DecapSweepsWholeGrid | scripts_dsn/regulator_ldo_series.py:199-204 | once entered with enough rejection bandwidth, the sweep never breaks early |
| LdoAmp.GrowFrom | scripts_dsn/regulator_ldo_series.py:210-237 | the tail count reached is at or above the start and of the same parity |
| LdoAmp.GrowFromFault | scripts_dsn/regulator_ldo_series.py:213-237 | a fault comes from measuring some count within the budget, every earlier count having fallen short |
| LdoAmp.GrowFromStops | scripts_dsn/regulator_ldo_series.py:213-237 | the loop stops with phase margin and bandwidth met or the budget reached; the metrics are the start's when nothing was grown and otherwise those measured at the last count; every count passed over fell short |
| LdoAmp.GrowTail | scripts_dsn/regulator_ldo_series.py:210-237 | the loop gives exactly the growth above; a fault is one measured within the budget after counts that fell short |
| LdoAmp.GrowFault | scripts_dsn/regulator_ldo_series.py:213-237 | growing the tail can only fail by division or by a bare infinity |
| LdoAmp.GrowBranch | scripts_dsn/regulator_ldo_series.py:210-242 | the growth branch fails only by division or unpacking; it returns a well-sized design with all decoupling on the load, and true iff every target is met within the budget |
| LdoAmp.DecapStageSpec | scripts_dsn/regulator_ldo_series.py:196-209 | the sweep hits iff it is entered and some capacitance meets every target, the hit being the first; a miss leaves the metrics the growth test reads |
| LdoAmp.LaterBranches | scripts_dsn/regulator_ldo_series.py:196-244 | after the as-sized test: a decoupling hit, else growth, else `(False, ...)`; every design is well sized and a success meets every target |
| LdoAmp.Policy | scripts_dsn/regulator_ldo_series.py:186-244 | a fault of the first measurement propagates; the three-way policy; designs are well sized with their branch's capacitors, and a success meets every target |
| LdoAmp.PolicyAsSized | scripts_dsn/regulator_ldo_series.py:186-195 | accepted as sized, with no decoupling, exactly when the first test (line 191) passes, and then with the measured metrics |
| LdoAmp.PolicyDecap | scripts_dsn/regulator_ldo_series.py:196-209 | the decoupling branch is taken exactly when the first test fails and the sweep hits; the design carries the first capacitance meeting every target |
| LdoAmp.PolicyGrowOrGiveUp | scripts_dsn/regulator_ldo_series.py:210-244 | with both earlier branches failing, the growth branch is taken iff its test passes on the metrics the sweep left, else `(False, ...)` |
| LdoAmp.FromBias | scripts_dsn/regulator_ldo_series.py:145-244 | after a bias choice the unbound-name fault cannot occur; a design is well sized and a success meets every target |
| LdoAmp.EarlyExit | scripts_dsn/regulator_ldo_series.py:149-167 | a mirror without fingers, or a tail over the budget, gives `(False, ...)` before any analysis |
| LdoAmp.SizedToPolicy | scripts_dsn/regulator_ldo_series.py:145-244 | a sized amplifier goes to the acceptance policy unchanged |
| LdoAmp.AmpDesignOf | scripts_dsn/regulator_ldo_series.py:92-244 | the unbound-name fault iff no input point is admitted and the tail grid is non-empty; every design well sized with its branch's capacitors; `True` implies every target met within the budget |
| LdoAmp.DsnAmp | scripts_dsn/regulator_ldo_series.py:92-244 | the method, with its loops, gives exactly the amplifier design above |
| LdoAmp.Accept | scripts_dsn/regulator_ldo_series.py:186-244 | the method, with its loops, gives exactly the three-way policy above |
| LdoAmp.SizedWellSized | scripts_dsn/regulator_ldo_series.py:169-194 | the design as sized has even fingers, multipliers in [1,2), and total current = tail unit current times tail fingers |
| LdoAmp.GrownWellSized | scripts_dsn/regulator_ldo_series.py:213-240 | devices regrown to any even count at or above the sized one make a well-sized design |
| LdoAmp.GrowMeasureAt | scripts_dsn/regulator_ldo_series.py:215-236 | measuring a regrown design can only fail by division or by a bare infinity |
| LdoAmp.GrownDesign | scripts_dsn/regulator_ldo_series.py:238-242 | the grown design puts all decoupling on the load; its flag is true iff every target is met within the budget |
| LdoAmp.AcceptGrown | scripts_dsn/regulator_ldo_series.py:210-242 | the method, with its loop, gives exactly the growth branch above |
| LdoSearch.OpCompare | scripts_dsn/regulator_ldo_series.py:507-508 | returns one of its arguments, never one with more current than the other; ties and the sentinel go to the second |
| LdoSearch.AcceptStep | scripts_dsn/regulator_ldo_series.py:326-335 | a design meeting targets within the budget replaces the record, and the history stays strictly decreasing in current |
| LdoSearch.SearchResult | scripts_dsn/regulator_ldo_series.py:308-336 | a found record meets every target, is well sized, carries the pass-through dictionaries, and draws the least current of all accepted designs |
| LdoSearch.PointOutcome | scripts_dsn/regulator_ldo_series.py:311-328 | the series device's division fault propagates; a design returned meets every target within the budget and is well sized |
| LdoSearch.DesignAt | scripts_dsn/regulator_ldo_series.py:311-328 | returns the point's outcome; a design iff the series device matches and the amplifier reports every target met |
| LdoSearch.PointOutcomesSound | scripts_dsn/regulator_ldo_series.py:311-328 | every design any sweep point returns meets every target within the budget it was given and is well sized |
| LdoSearch.SearchSnoc | scripts_dsn/regulator_ldo_series.py:308-335 | one more gate voltage is one more pass of the loop, after a fault nothing |
| LdoSearch.StepKeeps | scripts_dsn/regulator_ldo_series.py:326-335 | a pass keeps the search invariant and the pass-through dictionaries and accepts at most one design |
| LdoSearch.StepReplaces | scripts_dsn/regulator_ldo_series.py:326-335 | a pass changes the record iff its point gives a design; the new record is that design, drawing less than the old budget, appended to the history; otherwise nothing changes |
| LdoSearch.SearchKeeps | scripts_dsn/regulator_ldo_series.py:308-335 | every state of the sweep keeps the search invariant and the pass-through dictionaries, with at most one accepted design per point |
| LdoSearch.SearchFails | scripts_dsn/regulator_ldo_series.py:308-328 | a fault ends the sweep: no later point changes the result |
| LdoSearch.Consider | scripts_dsn/regulator_ldo_series.py:308-335 | one pass of the sweep: exactly the fold step; the record changes iff the point gives a design, which then draws strictly less than the old budget |
| LdoSearch.MeetSpecResult | scripts_dsn/regulator_ldo_series.py:308-336 | after the whole gate sweep, the history is strictly decreasing under the budget; a found record meets every target, is well sized, carries the width, length and flavour dictionaries and the device types, and draws no more current than any accepted design |
| LdoSearch.MeetSpec | scripts_dsn/regulator_ldo_series.py:247-336 | returns the fold's one-element list, its history being the in-order designs accepted; the sentinel iff nothing was accepted; otherwise the least-current accepted design, meeting every target, with the given widths, lengths, flavours and the device types |
| LdoSearch.RoleOf | scripts_dsn/regulator_ldo_series.py:169-184 | a key that names a role is that role's dictionary name |
| LdoSearch.RoleNameRoundTrip | scripts_dsn/regulator_ldo_series.py:169-184 | every role's dictionary key reads back as that role |
| LdoSearch.ScaledWidths | scripts_dsn/regulator_ldo_series.py:512-514 | the scaled width dictionary has exactly the keys of the width dictionary |
| LdoSearch.ScaledAt | scripts_dsn/regulator_ldo_series.py:513-514 | each scaled width is the unit width times its device's multiplier |
| LdoSearch.NfDictAt | scripts_dsn/regulator_ldo_series.py:175-179 | every role's finger count is its device's |
| LdoSearch.GetSchParams | scripts_dsn/regulator_ldo_series.py:510-523 | no solution iff the record is the sentinel or a width key names no device; otherwise widths scaled, and the rest passed through |
| CascodeConn.SortDistinctDesc | BagModules/bag2_analog/cascode_conn.py:167-169 | strictly descending, with exactly the input's elements; empty iff the input is |
| CascodeConn.BusList | BagModules/bag2_analog/cascode_conn.py:157-190 | the walk returns the rendered maximal runs of the sorted distinct indices |
| CascodeConn.WalkStep | BagModules/bag2_analog/cascode_conn.py:176-184 | an index closes the current run unless it is one below the previous index |
| CascodeConn.RunsFromCovers | BagModules/bag2_analog/cascode_conn.py:171-188 | the runs emitted cover the current run and the indices still to visit, and nothing else |
| CascodeConn.RunsShape | BagModules/bag2_analog/cascode_conn.py:169-188 | runs are non-empty and separated by gaps, and empty only for no indices |
| CascodeConn.RunsCovers | BagModules/bag2_analog/cascode_conn.py:157-190 | the runs stand for exactly the input indices |
| CascodeConn.GapIsMissing | BagModules/bag2_analog/cascode_conn.py:177-183 | between consecutive runs lies an index that no run covers (maximality) |
| CascodeConn.BusListDescending | BagModules/bag2_analog/cascode_conn.py:169-188 | entries are strictly descending and disjoint, and each run has high >= low |
| CascodeConn.ParseRenderRun | BagModules/bag2_analog/cascode_conn.py:179-188 | each entry `k` or `a:b` reads back as its run |
| CascodeConn.ParseAllRendered | BagModules/bag2_analog/cascode_conn.py:171-190 | a rendered list of runs reads back as those runs |
| CascodeConn.BusListRoundTrip | BagModules/bag2_analog/cascode_conn.py:157-190 | expanding every entry gives back exactly the input index set |
| CascodeConn.BusListSetOnly | BagModules/bag2_analog/cascode_conn.py:167-169 | the output depends only on the set of indices |
| CascodeConn.BusListExample | BagModules/bag2_analog/cascode_conn.py:163-165 | `[1,2,5,6,7,9]` gives `['9','7:5','2:1']` |
| CascodeConn.AtMostOneRunIffContiguous | BagModules/bag2_analog/cascode_conn.py:107-108 | the assertion's "at most one run" holds iff the self-tied indices are contiguous |
| CascodeConn.SelfTiedMembers | BagModules/bag2_analog/cascode_conn.py:100-103 | i is self-tied iff its connection is `pin<i>` |
| CascodeConn.SelfTiedIndices | BagModules/bag2_analog/cascode_conn.py:100-103 | the loop collects exactly the self-tied indices in increasing order |
| CascodeConn.TiedPinEdit | BagModules/bag2_analog/cascode_conn.py:107-112 | fails iff the self-tied indices form two or more runs; otherwise it renames the pin to the run, or removes it |
| CascodeConn.Reversed | BagModules/bag2_analog/cascode_conn.py:90-91 | the reversed list has the same length and position i holds the element i from the end |
| CascodeConn.JoinCommaEmpty | BagModules/bag2_analog/cascode_conn.py:90-91 | a joined list is empty iff the list is empty or one empty string |
| CascodeConn.DrainConn | BagModules/bag2_analog/cascode_conn.py:90-91 | a side's connection string is empty iff its list is empty or one empty string |
| CascodeConn.LastChar | BagModules/bag2_analog/cascode_conn.py:93 | `s[-1]` fails iff s is empty, and otherwise is the one-character string of the last character |
| CascodeConn.DaTestOutcome | BagModules/bag2_analog/cascode_conn.py:93-94 | the DA test fails iff a connection string it reads is empty, and otherwise always removes the pin |
| CascodeConn.DrainPinEdits | BagModules/bag2_analog/cascode_conn.py:87-112 | succeeds iff the lengths equal the stack heights, neither joined list is empty and each side has at most one run; an empty N or P list is an index fault; DA is then removed and the DNA and DPA edits are those of each side |
| CascodeConn.DrainPinRemoved | BagModules/bag2_analog/cascode_conn.py:109-112 | a side's pin is removed iff none of its drains is self-tied |
| Numerals.IntRoundTrip | BagModules/bag2_analog/cascode_conn.py:180-182 | the decimal rendering of an integer parses back to it |
| DacRladder.Design | BagModules/bag2_analog/dac_rladder.py:60-109 | accepted iff the bit count is non-negative, the keys exist, and `code_max < num_res`; `num_res`, `code_min`, `code_max` are as documented; `num_out` is overwritten with `num_res` |
| DacRladder.MuxWindow | BagModules/bag2_analog/dac_rladder.py:78-81 | the taps wired to the mux are exactly `mid<code_min>` .. `mid<code_max>`, as many as the mux has inputs |
| DacRladder.LowerTerminates | BagModules/bag2_analog/dac_rladder.py:94-100 | the lower no-connect covers exactly the taps below `code_min` |
| DacRladder.UpperTerminates | BagModules/bag2_analog/dac_rladder.py:102-109 | the upper no-connect covers exactly the taps above `code_max` |
| DacRladder.Partition | BagModules/bag2_analog/dac_rladder.py:78-109 | every ladder tap is in exactly one of lower no-connect, mux window, upper no-connect |
| DacRladder.FullScaleUsesWholeLadder | BagModules/bag2_analog/dac_rladder.py:65-68 | a full-scale DAC deletes both no-connects |
| ResTrimSeries.ResistorString | BagModules/bag2_analog/res_trim_series.py:73-79 | resistor i runs from `mid<i>`; each MINUS is the next PLUS; the last ends at Z |
| ResTrimSeries.StripDesigns | BagModules/bag2_analog/res_trim_series.py:82-85 | resistor i is designed with `num_unit = base * res_groupings[i]`, other parameters unchanged |
| ResTrimSeries.UnitTotalIsScaledSum | BagModules/bag2_analog/res_trim_series.py:82-85 | the string holds `base * sum(res_groupings)` units |
| ResTrimSeries.Design | BagModules/bag2_analog/res_trim_series.py:58-125 | the string, designs, switches and pin edits; a missing `num_unit` is a key fault; XRBASE MINUS goes to Z iff there is no switch |
| ResTrimSeries.SwitchSpansResistor | BagModules/bag2_analog/res_trim_series.py:104-110 | switch k drains on `mid<k>` and sources on the next node (Z for the last), driven by the swapped control bit |
| ResTrimSeries.CtrlbPinRemoved | BagModules/bag2_analog/res_trim_series.py:94-125 | CTRLb is removed iff the switch is PMOS or there is no switch |
| ResTrimSeries.CtrlPinRemoved | BagModules/bag2_analog/res_trim_series.py:94-125 | CTRL is removed iff the switch is NMOS or there is no switch |
| ResTrimSeries.CtrlPinsBussed | BagModules/bag2_analog/res_trim_series.py:104-115 | each control pin becomes a bus iff there are several switches of a type that uses it |
| ResTrimSeries.BulkPin | BagModules/bag2_analog/res_trim_series.py:87-90 | BULK is removed for VDD/VSS, renamed for any other net than BULK, untouched for BULK |
| MuxBinCore.Design | BagModules/bag2_analog/mux_bin_core.py:58-87 | a negative bit count is a shift fault; layers exist iff there are at least two bits, one per bit |
| MuxBinCore.LayerUnits | BagModules/bag2_analog/mux_bin_core.py:67 | one unit count per layer |
| MuxBinCore.LayerWidths | BagModules/bag2_analog/mux_bin_core.py:67-71 | layer i holds `2^(num_bits-i-1)` units, reads a bus twice that wide, and drives one as wide |
| MuxBinCore.LayerChain | BagModules/bag2_analog/mux_bin_core.py:68-71 | layer i drives the bus layer i+1 reads; the last drives VOUT |
| MuxBinCore.LayerSelects | BagModules/bag2_analog/mux_bin_core.py:69-82 | select bit k drives a layer iff k is a bit index of the renamed S/Sb bus |
| MuxBinCore.UnitCount | BagModules/bag2_analog/mux_bin_core.py:61-67 | the layers hold `num_units = 2^num_bits - 1` units |
| MuxBinSel.Design | BagModules/bag2_analog/mux_bin_sel.py:58-115 | rejected iff fewer than one bit; the output unit is 'both'; sub-muxes exist iff there are several bits, with one bit fewer |
| MuxBinSel.TypeMapping | BagModules/bag2_analog/mux_bin_sel.py:71-74 | split gives PMOS on top and NMOS below; a uniform type stays; the mapping is idempotent |
| MuxBinSel.ReconnWidths | BagModules/bag2_analog/mux_bin_sel.py:84-109 | every rewired terminal gets a net of its own width |
| MuxBinSel.HalfInputs | BagModules/bag2_analog/mux_bin_sel.py:86-94 | top input j is `VIN<num_in/2 + j>`, bottom input j is `VIN<j>` |
| MuxBinSel.InputReconns | BagModules/bag2_analog/mux_bin_sel.py:86-94 | the VIN rewiring of each sub-mux maps its lower range onto the matching half |
| MuxBinSel.HalvesPartition | BagModules/bag2_analog/mux_bin_sel.py:86-94 | every input lies in exactly one half |
| MuxBinSel.TreeInputsAll | BagModules/bag2_analog/mux_bin_sel.py:76-94 | unfolding the recursion, every input reaches exactly one leaf, in order |
| MuxBinSel.DesignLeaves | BagModules/bag2_analog/mux_bin_sel.py:76-94 | following the plans `design` builds down to one bit, the bottom units receive every input exactly once, from the top input down, for any device type |
| MuxOnehotSel.Design | BagModules/bag2_analog/mux_onehot_sel.py:45-104 | rejected iff `num_in <= 1`, or a split has no split code |
| MuxOnehotSel.DesignIntended | BagModules/bag2_analog/mux_onehot_sel.py:45-104 | the same rejections with the upper window corrected |
| MuxOnehotSel.UniformPins | BagModules/bag2_analog/mux_onehot_sel.py:82-102 | without a split, S becomes `S<num_in-1:0>` iff the type is n or both and is deleted otherwise; Sb likewise for p or both |
| MuxOnehotSel.SplitCollapses | BagModules/bag2_analog/mux_onehot_sel.py:58-59 | split code 0 or `num_in-1` is the all-PMOS design |
| MuxOnehotSel.OnCovers | BagModules/bag2_analog/mux_onehot_sel.py:61-62 | a window suffix covers exactly its index range |
| MuxOnehotSel.SplitWindowsAsWritten | BagModules/bag2_analog/mux_onehot_sel.py:61-79 | as written, the lower switches cover `<code-1:0>` and the upper ones `<num_in-1:code>`, except `<code>` alone at `code = num_in-2` |
| MuxOnehotSel.SplitDropsTopInput | BagModules/bag2_analog/mux_onehot_sel.py:62 | with four inputs and split code 2, VIN<3> is in the pin bus but drives no switch |
| MuxOnehotSel.IntendedWiresEachInputOnce | BagModules/bag2_analog/mux_onehot_sel.py:61-104 | with the corrected window every input drives exactly one switch, no other index does, and the switches number `num_in` |
| Nmos4Astack.SeriesChain | BagModules/bag2_analog/nmos4_astack.py:70-79 | device i is `XN<i>` with gate `G<i>`; the first source is S, the last drain D; each drain is the next source `m<i>` |
| Nmos4Astack.DeviceDesigns | BagModules/bag2_analog/nmos4_astack.py:82-94 | device i is designed with the i-th width, length, segments and intent |
| Nmos4Astack.Design | BagModules/bag2_analog/nmos4_astack.py:60-102 | list lengths must equal the stack (and the stack be non-empty); the chain, the designs, the gate bus and the optional mid pin |
| Nmos4Astack.MidPinIsInternalNodes | BagModules/bag2_analog/nmos4_astack.py:100-102 | the mid pin holds exactly the `stack-1` internal nodes |
| RladderCore.Design | BagModules/bag2_analog/rladder_core.py:56-73 | rejected iff `num_out < 1` |
| RladderCore.DesignIntended | BagModules/bag2_analog/rladder_core.py:56-73 | the same rejection, with a single resistor wired from VDD |
| RladderCore.LadderChain | BagModules/bag2_analog/rladder_core.py:67-73 | with two or more outputs, resistor k runs from `out<k+1>` (VDD for the top) to `out<k>`, buses as wide as the array |
| RladderCore.SingleResistorPlusTooWide | BagModules/bag2_analog/rladder_core.py:68-72 | with one output the PLUS bus `VDD,out<1>` is two nets for one resistor |
| RladderCore.IntendedLadderChain | BagModules/bag2_analog/rladder_core.py:67-73 | the corrected ladder is a chain from VDD for every accepted `num_out` |
| ResMultistrip.Design | BagModules/bag2_analog/res_multistrip.py:58-75 | arrayed iff `num_unit > 1`; then the loop designs element 0 once per unit with the same parameters |
| ResMultistrip.SeriesString | BagModules/bag2_analog/res_multistrip.py:63-70 | strip k runs from `mid<k>` (PLUS for the top) to `mid<k-1>` (MINUS for strip 0), buses as wide as the array |
| ResMultistrip.AdjacentStripsShareNode | BagModules/bag2_analog/res_multistrip.py:65-70 | the MINUS of strip k is the PLUS of strip k-1 |
| InvStarved.GateNets | BagModules/bag2_analog/inv_starved.py:95 | one gate term per control bit |
| InvStarved.Side | BagModules/bag2_analog/inv_starved.py:94-110 | the outer devices are arrayed iff there are several control bits |
| InvStarved.GateNetsEntries | BagModules/bag2_analog/inv_starved.py:95 | term i is `<*g_i>pin<base+i>` |
| InvStarved.GateConnEntries | BagModules/bag2_analog/inv_starved.py:95-104 | term i of the gate connection is `<*g_i>pin<i>` |
| InvStarved.GateBitCounts | BagModules/bag2_analog/inv_starved.py:95-104 | bit i drives exactly `groups[i]` devices and no other signal appears |
| InvStarved.GateWidth | BagModules/bag2_analog/inv_starved.py:95-105 | the connection holds `sum(groups)` gate nets |
| InvStarved.ArrayWidthsMatch | BagModules/bag2_analog/inv_starved.py:94-97 | the gate connection is as wide as the device array `<num_devices-1:0>` |
| InvStarved.GroupsExample | BagModules/bag2_analog/inv_starved.py:36 | groups `[1,2,3]` give bit0 one device, bit1 two, bit2 three |

## Left out

- The bodies of the four small-signal analyses (`_get_loopgain_lti`, `_get_psrr_lti`, `_get_stb_lti`, `_get_loadreg_lti`) are not modelled. They build `LTICircuit` netlists and call solvers that are not part of this model. Each is a function-valued field of `Evaluator`. Only the post-processing is modelled: the static error, the load regulation scaling, and the supply-rejection result.
- The decibel conversion `10*log10((1/g)**2)` is a parameter (`rejectionDb`). It is floating-point transcendental arithmetic.
- `get_mos_db`, the table `query`, `db.width_list` and `estimate_vth` are not modelled; they are external look-up tables.
  - The table queries are the function parameters in `Tables`.
  - The threshold estimate is a parameter of `MeetSpec`.
  - The width dictionary is a parameter of `MeetSpec`.
- The `np.arange` and `np.logspace` grids are parameters (`Grids`). Float rounding is not modelled: reals are exact.
- A division by zero is always a `ZeroDivision` fault. The source may divide numpy floats, which give `inf` or `nan` instead; that is not modelled.
- Operating points are dictionaries with `ibias`, `vstar` and `cgg` and no empty key. With an empty key, `key[0]` in `resize_op` would raise.
- Line 85 of `dsn_fet` is modelled only through the division fault it can raise. Its rounded value is overwritten at line 88.
- The sentinel record's other entries (`err`, `psrr`, ...) are not modelled. `best_op.update` is modelled as replacing the record, because an accepted design carries every key the sentinel has.
- `print` calls and the warning prints of `cascode_conn` are left out.
- `dsn_cell.py` (command line, YAML and pickle I/O) is not part of this model.
- The netlist effect of the framework's `Module` methods (`rename_pin`, `array_instance`, `reconnect_instance_terminal`, `delete_instance`, `design` of sub-instances) is not modelled. The model states the arguments the generators compute.
- Parameter pass-through to sub-instance `design` calls is not modelled where nothing is computed:
  - `inv_starved.py:73-93`, 99, 101, 108 and 110;
  - `mux_bin_core.py:77-78` and 87;
  - `dac_rladder.py:74-75` (beyond `num_out`);
  - `res_trim_series.py:69-70` (the XRBASE design and its BULK rewiring), 111 and 117;
  - `rladder_core.py:62`.
- The rest of `cascode_conn.design` is not modelled; only `bus_list`, the DA pin test and the DNA/DPA self-tied pins are. Two of the remaining lines break:
  - line 76 references `res_conn.item()`, which is undefined;
  - line 150 reads `DNB_conn_add`, which is unbound for a stack of one.
  The B side and gate pins (lines 127-155) are left out with them.
- The `KeyError`s from missing entries of the generators' parameter dictionaries are not modelled, except where a computed value reads them: `num_out`, `code_min`, `num_unit` and the split code.
- InvStarved: group counts in `ctrl_groups_p` / `ctrl_groups_n` are natural numbers. A negative count would subtract from `sum` (lines 69-70) and render as `<*-k>`; that case is not modelled.

## Findings

| source | as written | input that shows it | evidently intended | confidence | as-written member | corrected member |
|---|---|---|---|---|---|---|
| BagModules/bag2_analog/mux_onehot_sel.py:62 | the upper window is `<split_code>` alone when `split_code == num_in-2` | `num_in = 4`, `mos_type = 'split'`, `split_code = 2`: VIN<3> drives no switch | upper window `<num_in-1:split_code>` whenever it holds two or more inputs | high; not executed | MuxOnehotSel.SplitDropsTopInput | MuxOnehotSel.IntendedWiresEachInputOnce |
| BagModules/bag2_analog/rladder_core.py:68-70 | PLUS is `VDD,out<1>` whenever `num_out <= 2` | `num_out = 1`: a one-resistor array gets a two-net PLUS bus | PLUS is `VDD` alone for a single resistor | high; not executed | RladderCore.SingleResistorPlusTooWide | RladderCore.IntendedLadderChain |
