# Q-Learning Lander — a verified model of the learning core

The Q-Learning Lander agents play the GVGAI "lander" game: a ship turns left
or right and thrusts, and it must touch down on a portal slowly and upright.
The repository holds three generations of the agent (GVG_AI, GVG_AI_V1 and
GVG_AI_V2). Each generation has the same tabular Q-learning core, modelled
here:

- **Matrix** (`matrix.dfy`): the list-of-rows table with its width and height
  checks, row and column insertion and removal, and cell access. It also
  writes its text form, which is the CSV file that `readCSV` reads back
  (`csv.dfy`).
- **QTable** (`qtable.dfy`): one row per generated state and one column per
  available action. It has zero or uniformly random initialisation, the
  largest Q-value of a state, the first best action and a random action.
- **State** and its generations: the GVG_AI six-feature `State`
  (`state.dfy`), the GVG_AI_V2 four-feature `State` (`state_v2.dfy`), and the
  four zone features that the first `AgentState` and the GVG_AI_V1
  generators use (`zone_state.dfy`).
- **StateGenerator**: the combination machinery shared by every generation:
  `combnk`, `combnkRec`, `addIntegerToCombination` and `filterStates`
  (`combinations.dfy`).
  - The three state spaces it produces:
    - GVG_AI, 1024 states (`generator.dfy`);
    - GVG_AI_V1, 200 states (`generator_v1.dfy`), whose `StateGenerator`
      and `vectorAgent/VectorStateGenerator` are the same code;
    - GVG_AI_V2, 400 states (`generator_v2.dfy`).
  - Each space is proved to hold exactly the intended tuples, once each.
- **AgentState**, the perception:
  - portal search, nearest portal and run of neighbouring portals
    (`portals.dfy`);
  - the wall projection below the agent (`walls.dfy`);
  - angles, cells and distances (`geometry.dfy`);
  - the GVG_AI features: orientation zone, displacement zone, compass,
    fast flag and the compass correction (`agent_state.dfy`);
  - the GVG_AI_V2 features: orientation region, displacement region, goal
    flag and fast flag with hysteresis (`agent_state_v2.dfy`).
- **QLearning**: the update rule and the annealing schedule
  (`updates.dfy`). The GVG_AI learner with its reward shaping is in
  `learning.dfy`; the GVG_AI_V2 learner with zero reward and visit counts is
  in `learning_v2.dfy`.
- **Brain**: the facade the game agent calls each tick, for GVG_AI
  (`brain.dfy`) and GVG_AI_V2 (`brain_v2.dfy`).

**How the source is modelled**
- Objects that the source updates in place are classes:
  - `Matrix`, `QTable`, both `State` classes, both `AgentState` classes,
    both `QLearning` classes and both `Brain` classes;
  - the static tick counter `time`, which is the `Clock` class;
  - the `TupleList` that `filterStates` walks.
- Loops are methods with invariants, proved against specification functions.
- Java `float`s are reals.

**Parameters instead of host calls**
- The host framework's observation is a value (`host.dfy`).
- `Math.atan` is a parameter whose required properties are stated:
  - GVG_AI passes it as the value for the avatar's heading;
  - GVG_AI_V2 passes it as a function.
- `Random.nextFloat` is a draw parameter in [0, 1), or a nondeterministic
  choice.
- The CSV file the Q-table is loaded from is an `Option` of rows.

## Model

| member | source | states |
|---|---|---|
| Matrices.InsertAt | GVG_AI/src/raulcastilla215alu/matrix/Matrix.java:143-157 | the row list after `add(index, row)`: one longer, the new row at index, earlier rows in place, later rows one further down |
| Matrices.RemoveAt | GVG_AI/src/raulcastilla215alu/matrix/Matrix.java:227-229 | the row list after `remove(index)`: one shorter, earlier rows in place, later rows one place up |
| Matrices.RemoveAtInsertAt | GVG_AI/src/raulcastilla215alu/matrix/Matrix.java:143-157 | removing the row just inserted at the same index gives back the original rows |
| Matrices.EmptyRows | GVG_AI/src/raulcastilla215alu/matrix/Matrix.java:164-187 | the rows addColumn creates for an empty matrix: n rows, each empty |
| Matrices.AddRowKeepsRectangular | GVG_AI/src/raulcastilla215alu/matrix/Matrix.java:120-157 | a row that passes the width check keeps every row as wide as the first, whether appended or inserted |
| Matrices.ColumnOfInsertColumn | GVG_AI/src/raulcastilla215alu/matrix/Matrix.java:196-219 | an inserted column reads back as the column given; the table stays rectangular and becomes one wider |
| Matrices.DeleteColumnInsertColumn | GVG_AI/src/raulcastilla215alu/matrix/Matrix.java:196-240 | removeColumn at the same index undoes addColumn(index) |
| Matrices.AppendColumnIsInsertAtEnd | GVG_AI/src/raulcastilla215alu/matrix/Matrix.java:164-219 | on a rectangular table addColumn is addColumn(index) at the width |
| Matrices.DeleteColumnKeepsRectangular | GVG_AI/src/raulcastilla215alu/matrix/Matrix.java:236-240 | removing a column keeps the table rectangular and one narrower |
| Matrices.GetAfterSet | GVG_AI/src/raulcastilla215alu/matrix/Matrix.java:249-262 | get after set returns the new value, every other cell is unchanged, and the table stays rectangular |
| Matrices.Matrix.constructor | GVG_AI/src/raulcastilla215alu/matrix/Matrix.java:30-32 | a new matrix has no rows |
| Matrices.Matrix.FromRows | GVG_AI/src/raulcastilla215alu/matrix/Matrix.java:40-44 | the matrix holds exactly the rows read from the file |
| Matrices.Matrix.AddRow | GVG_AI/src/raulcastilla215alu/matrix/Matrix.java:120-134 | a row is appended exactly when the matrix is empty or the row is as wide as the first row; otherwise the error path leaves the rows unchanged |
| Matrices.Matrix.AddRowAt | GVG_AI/src/raulcastilla215alu/matrix/Matrix.java:143-157 | the same width check; on success the row is inserted at index, otherwise nothing changes |
| Matrices.Matrix.AddColumn | GVG_AI/src/raulcastilla215alu/matrix/Matrix.java:164-187 | accepted exactly when the matrix is empty or the column has one cell per row; the cell goes at the end of each row, and an empty matrix first gets one empty row per cell; a refused column changes nothing |
| Matrices.Matrix.AddColumnAt | GVG_AI/src/raulcastilla215alu/matrix/Matrix.java:196-219 | the same height check; on success col[i] is inserted at the index of row i; a refused column changes nothing |
| Matrices.Matrix.RemoveRow | GVG_AI/src/raulcastilla215alu/matrix/Matrix.java:227-229 | the row at index is removed and the later rows shift up |
| Matrices.Matrix.RemoveColumn | GVG_AI/src/raulcastilla215alu/matrix/Matrix.java:236-240 | the cell at index is removed from every row; a matrix with no rows is left unchanged whatever the index |
| Matrices.Matrix.Set | GVG_AI/src/raulcastilla215alu/matrix/Matrix.java:249-251 | exactly one cell is replaced |
| Matrices.Matrix.Width | GVG_AI/src/raulcastilla215alu/matrix/Matrix.java:269-274 | 0 for an empty matrix; on a rectangular matrix, the length of every row |
| Matrices.Matrix.GetRow | GVG_AI/src/raulcastilla215alu/matrix/Matrix.java:294-299 | null exactly when the matrix is empty; otherwise a row as wide as the matrix |
| Matrices.Matrix.GetColumn | GVG_AI/src/raulcastilla215alu/matrix/Matrix.java:307-317 | null exactly when the matrix is empty; otherwise the cell of that column from every row, top to bottom |
| Matrices.Matrix.ToString | GVG_AI/src/raulcastilla215alu/matrix/Matrix.java:357-373 | the text built by the nested loop is the CSV document of the cells: the cells of each row joined by ',', then '\n' |
| Csv.Split | GVG_AI/src/raulcastilla215alu/matrix/Matrix.java:75-113 | the reader's split: at least one piece, and a text without the separator is one piece |
| Csv.SplitAtSeparator | GVG_AI/src/raulcastilla215alu/matrix/Matrix.java:75-113 | a separator inside a text splits it into the pieces of each side |
| Csv.SplitJoinCells | GVG_AI/src/raulcastilla215alu/matrix/Matrix.java:357-373 | splitting a written row on ',' gives back its cells |
| Csv.JoinCellsHasNoLineFeed | GVG_AI/src/raulcastilla215alu/matrix/Matrix.java:357-373 | a written row of plain cells holds no line feed |
| Csv.SplitCsvText | GVG_AI/src/raulcastilla215alu/matrix/Matrix.java:75-113 | splitting the written document on '\n' gives its lines, in order, then the trailing text |
| Csv.ParseCsv | GVG_AI/src/raulcastilla215alu/matrix/Matrix.java:75-113 | the reader yields rows of at least one cell each |
| Csv.CsvRoundTrip | GVG_AI/src/raulcastilla215alu/matrix/Matrix.java:64-113 | reading back the text toCSV writes gives the rows that were written, for non-empty rows of plain cells |
| QTables.IndexOf | GVG_AI/src/raulcastilla215alu/matrix/QTable.java:53-57 | indexOf gives the first position holding the key, and -1 exactly when the key is absent |
| QTables.IndexOfSeparates | GVG_AI/src/raulcastilla215alu/matrix/QTable.java:53-70 | two different present keys map to different rows or columns |
| QTables.LookupAfterSet | GVG_AI/src/raulcastilla215alu/matrix/QTable.java:53-70 | after set(s, a, v), get(s, a) is v; every other present (state, action) pair reads as before; the shape is kept |
| QTables.RowMax | GVG_AI/src/raulcastilla215alu/matrix/QTable.java:129-147 | the maximum of a non-empty row: a value of the row, and no cell is larger |
| QTables.FirstArgMax | GVG_AI/src/raulcastilla215alu/matrix/QTable.java:155-170 | the best column: its value is the row maximum, and every earlier column is strictly smaller (ties go to the first) |
| QTables.QTable.constructor | GVG_AI/src/raulcastilla215alu/matrix/QTable.java:32-44 | the table over the given states and actions holds the stored file's rows when the file exists; otherwise one row of uniform [0, 1) draws per state |
| QTables.QTable.WithZeros | GVG_AI/src/raulcastilla215alu/matrix/QTable.java:91-95 | a table with one row per state and one column per action, every cell 0 |
| QTables.QTable.Set | GVG_AI/src/raulcastilla215alu/matrix/QTable.java:66-70 | set changes the cell of (s, a) to v and no other cell |
| QTables.QTable.CreateRowWithZeros | GVG_AI/src/raulcastilla215alu/matrix/QTable.java:78-86 | a row of `length` zeros |
| QTables.QTable.CreateRowWithRandoms | GVG_AI/src/raulcastilla215alu/matrix/QTable.java:103-112 | a row of `length` draws from [0, 1) |
| QTables.QTable.InitializesWithZeros | GVG_AI/src/raulcastilla215alu/matrix/QTable.java:91-95 | the table gets one row of zeros per state and one cell per action |
| QTables.QTable.InitializesWithRandoms | GVG_AI/src/raulcastilla215alu/matrix/QTable.java:117-121 | the table gets one row of [0, 1) draws per state and one cell per action |
| QTables.QTable.GetMaxQValue | GVG_AI/src/raulcastilla215alu/matrix/QTable.java:129-147 | the largest Q-value of the state: it occurs in the row and no cell exceeds it |
| QTables.QTable.GetBestAction | GVG_AI/src/raulcastilla215alu/matrix/QTable.java:155-170 | the action of the first column that holds the row maximum (a later column replaces it only when strictly larger) |
| QTables.QTable.GetRandomAction | GVG_AI/src/raulcastilla215alu/matrix/QTable.java:177-182 | some available action |
| States.Decode | GVG_AI/src/raulcastilla215alu/mytools/State.java:80-89 | update's reading of six integers: danger and fast are true exactly when their entries are non-zero |
| States.DecodeEqualIff | GVG_AI/src/raulcastilla215alu/mytools/State.java:80-103 | two arrays give equal states exactly when they agree at positions 0..3 and on which of positions 4 and 5 are non-zero |
| States.State.constructor | GVG_AI/src/raulcastilla215alu/mytools/State.java:46-48 | every integer feature 0 and both flags false |
| States.State.Copy | GVG_AI/src/raulcastilla215alu/mytools/State.java:55-64 | the copy equals the original |
| States.State.FromArray | GVG_AI/src/raulcastilla215alu/mytools/State.java:71-73 | the state built from an array holds what update reads from it |
| States.State.Update | GVG_AI/src/raulcastilla215alu/mytools/State.java:80-89 | every feature is overwritten from the array |
| States.State.Equals | GVG_AI/src/raulcastilla215alu/mytools/State.java:95-103 | equals holds exactly when all six features agree |
| States.EqualsIsEquivalence | GVG_AI/src/raulcastilla215alu/mytools/State.java:95-103 | equals is reflexive, symmetric and transitive |
| States.OrientationToString | GVG_AI/src/raulcastilla215alu/mytools/State.java:129-141 | an angle code reads as its degrees (45 per step from ANGLE0); any other integer reads as the fallback text |
| States.CompassToString | GVG_AI/src/raulcastilla215alu/mytools/State.java:150-158 | each compass code reads as its name; any other integer reads as the fallback text |
| States.OrientationNamesAreDistinct | GVG_AI/src/raulcastilla215alu/mytools/State.java:129-141 | different angle codes read differently, and never as the fallback |
| States.CompassNamesAreDistinct | GVG_AI/src/raulcastilla215alu/mytools/State.java:150-158 | different compass codes read differently, and never as the fallback |
| StatesV2.Encode | GVG_AI_V2/src/raulcastilla215alu/mytools/State.java:74-79 | the array of a state has one integer per attribute |
| StatesV2.Decode | GVG_AI_V2/src/raulcastilla215alu/mytools/State.java:74-79 | update keeps the first four integers verbatim: encoding the result gives them back |
| StatesV2.DecodeEncode | GVG_AI_V2/src/raulcastilla215alu/mytools/State.java:74-79 | update of a state's own array gives back that state |
| StatesV2.DecodeEqualIff | GVG_AI_V2/src/raulcastilla215alu/mytools/State.java:74-92 | two arrays give equal states exactly when their first four integers agree |
| StatesV2.SentinelsAreNotFeatureValues | GVG_AI_V2/src/raulcastilla215alu/mytools/State.java:26-33 | NONE and ERROR are never a region or a flag value |
| StatesV2.State.constructor | GVG_AI_V2/src/raulcastilla215alu/mytools/State.java:41-43 | every feature 0 |
| StatesV2.State.Copy | GVG_AI_V2/src/raulcastilla215alu/mytools/State.java:51-56 | the copy equals the original |
| StatesV2.State.FromArray | GVG_AI_V2/src/raulcastilla215alu/mytools/State.java:64-66 | the state built from an array holds what update reads from it |
| StatesV2.State.Update | GVG_AI_V2/src/raulcastilla215alu/mytools/State.java:74-79 | every feature is overwritten from the array |
| StatesV2.State.Equals | GVG_AI_V2/src/raulcastilla215alu/mytools/State.java:86-92 | equals holds exactly when all four features agree |
| StatesV2.BooleanToString | GVG_AI_V2/src/raulcastilla215alu/mytools/State.java:117-123 | TRUE reads "true", FALSE reads "false", anything else reads as the error message |
| StatesV2.BooleanNamesAreDistinct | GVG_AI_V2/src/raulcastilla215alu/mytools/State.java:117-123 | the two flags read differently, and never as the error message |
| ZoneStates.Encode | GVG_AI/src/raulcastilla215alu/mytools/AgentState.java:110-133 | the array perceive fills has one integer per feature |
| ZoneStates.Decode | GVG_AI/src/raulcastilla215alu/mytools/AgentState.java:110-133 | update keeps the first four integers verbatim |
| ZoneStates.DecodeEncode | GVG_AI/src/raulcastilla215alu/mytools/AgentState.java:110-133 | update of a state's own array gives back that state |
| ZoneStates.SentinelsAreNotCodes | GVG_AI/src/raulcastilla215alu/mytools/AgentState.java:653-684 | obeyCompass's NONE and ERROR never coincide with a zone, compass or flag code |
| Combinations.ExtendAt | GVG_AI/src/raulcastilla215alu/mytools/StateGenerator.java:66-79 | addIntegerToCombination's order: tuple i extended by value j sits at j times the number of tuples, plus i |
| Combinations.ExtendMember | GVG_AI/src/raulcastilla215alu/mytools/StateGenerator.java:66-79 | every output tuple is an input tuple followed by one of the values |
| Combinations.ExtendContains | GVG_AI/src/raulcastilla215alu/mytools/StateGenerator.java:66-79 | every input tuple followed by every value is in the output |
| Combinations.ExtendDistinct | GVG_AI/src/raulcastilla215alu/mytools/StateGenerator.java:66-79 | distinct tuples and distinct values give distinct output tuples |
| Combinations.EnumMembership | GVG_AI/src/raulcastilla215alu/mytools/StateGenerator.java:121-141 | the enumeration holds a tuple exactly when each entry is drawn from its domain |
| Combinations.EnumOnlyTuples | GVG_AI/src/raulcastilla215alu/mytools/StateGenerator.java:121-141 | every enumerated tuple draws each entry from its domain |
| Combinations.EnumHasTuples | GVG_AI/src/raulcastilla215alu/mytools/StateGenerator.java:121-141 | every tuple that draws each entry from its domain is enumerated |
| Combinations.EnumDistinct | GVG_AI/src/raulcastilla215alu/mytools/StateGenerator.java:121-141 | with repeat-free domains no tuple is enumerated twice |
| Combinations.EnumAt | GVG_AI/src/raulcastilla215alu/mytools/StateGenerator.java:121-141 | the tuple at mixed-radix index (first position fastest) of a position vector is the tuple it picks |
| Combinations.RepeatCount | GVG_AI/src/raulcastilla215alu/mytools/StateGenerator.java:108-110 | combnk over k positions yields \|V\|^k tuples |
| Combinations.RepeatEnum | GVG_AI/src/raulcastilla215alu/mytools/StateGenerator.java:108-110 | combnk's result holds exactly the length-k tuples over V, each once when V has no repeats |
| Combinations.SingletonsAreExtend | GVG_AI/src/raulcastilla215alu/mytools/StateGenerator.java:121-141 | combnkRec's base case, one singleton per value, is the enumeration of one domain |
| Combinations.EnumSnoc | GVG_AI/src/raulcastilla215alu/mytools/StateGenerator.java:121-141 | one more domain extends the previous enumeration exactly as addIntegerToCombination does |
| Combinations.AddIntegerToCombination | GVG_AI/src/raulcastilla215alu/mytools/StateGenerator.java:66-79 | for each value in turn, every tuple with that value appended; \|values\| times \|tuples\| of them |
| Combinations.CombnkRec | GVG_AI/src/raulcastilla215alu/mytools/StateGenerator.java:121-141 | all tuples of length + 1 over the values, in mixed-radix order |
| Combinations.Combnk | GVG_AI/src/raulcastilla215alu/mytools/StateGenerator.java:108-110 | all tuples of the given length over the values, in mixed-radix order |
| Combinations.FilterKeeps | GVG_AI/src/raulcastilla215alu/mytools/StateGenerator.java:148-155 | filtering keeps a tuple exactly when it was present and passes the test |
| Combinations.FilterIsIdentity | GVG_AI/src/raulcastilla215alu/mytools/StateGenerator.java:163-165 | with isValid always true, filterStates keeps the list unchanged |
| Combinations.FilterStates | GVG_AI/src/raulcastilla215alu/mytools/StateGenerator.java:148-155 | the in-place walk with its step back after a removal leaves exactly the passing tuples, in order |
| Combinations.FilterAdvance | GVG_AI/src/raulcastilla215alu/mytools/StateGenerator.java:148-155 | at each step of the walk the tuple examined is the next original one, and keeping or removing it advances the filtered prefix by one |
| Generator.ToStates | GVG_AI/src/raulcastilla215alu/mytools/StateGenerator.java:88-98 | one state per tuple, built by update, in order |
| Generator.Generate | GVG_AI/src/raulcastilla215alu/mytools/StateGenerator.java:16-55 | generate returns the state space |
| Generator.SpaceSize | GVG_AI/src/raulcastilla215alu/mytools/StateGenerator.java:16-55 | 8 x 8 x 2 x 2 x 2 x 2 = 1024 states |
| Generator.IndexFormula | GVG_AI/src/raulcastilla215alu/mytools/StateGenerator.java:16-55 | the index of a position vector is p0 + 8 p1 + 64 p2 + 128 p3 + 256 p4 + 512 p5 |
| Generator.SpaceAt | GVG_AI/src/raulcastilla215alu/mytools/StateGenerator.java:16-55 | the state with the values at positions p0..p5 of the six domains sits at that index |
| Generator.SpaceMembers | GVG_AI/src/raulcastilla215alu/mytools/StateGenerator.java:16-55 | a state is generated exactly when its angles are angle codes, its compass features are an east-west and a north-south code, and its flags are any |
| Generator.DecodeSeparates | GVG_AI/src/raulcastilla215alu/mytools/StateGenerator.java:88-98 | different tuples of the domains give different states |
| Generator.SpaceDistinct | GVG_AI/src/raulcastilla215alu/mytools/StateGenerator.java:16-55 | no state is generated twice |
| GeneratorV1.ToStates | GVG_AI_V1/src/raulcastilla215alu/mytools/StateGenerator.java:77-87 | one state per tuple, built by update, in order |
| GeneratorV1.Generate | GVG_AI_V1/src/raulcastilla215alu/mytools/StateGenerator.java:16-44 | generate returns the state space |
| GeneratorV1.SpaceSize | GVG_AI_V1/src/raulcastilla215alu/mytools/StateGenerator.java:16-44 | 5 x 5 x 4 x 2 = 200 states |
| GeneratorV1.IndexFormula | GVG_AI_V1/src/raulcastilla215alu/mytools/StateGenerator.java:16-44 | the index of a position vector is p0 + 5 p1 + 25 p2 + 100 p3 |
| GeneratorV1.SpaceAt | GVG_AI_V1/src/raulcastilla215alu/mytools/StateGenerator.java:16-44 | the state with the values at positions p0..p3 of the four domains sits at that index |
| GeneratorV1.SpaceOnlyCodes | GVG_AI_V1/src/raulcastilla215alu/vectorAgent/VectorStateGenerator.java:16-44 | every generated state holds a code in every feature |
| GeneratorV1.SpaceHasCodes | GVG_AI_V1/src/raulcastilla215alu/vectorAgent/VectorStateGenerator.java:16-44 | every state holding a code in every feature is generated |
| GeneratorV1.SpaceMembers | GVG_AI_V1/src/raulcastilla215alu/mytools/StateGenerator.java:16-44 | a state is generated exactly when every feature holds one of its codes |
| GeneratorV1.SpaceDistinct | GVG_AI_V1/src/raulcastilla215alu/mytools/StateGenerator.java:16-44 | no state is generated twice |
| GeneratorV2.Regions | GVG_AI_V2/src/raulcastilla215alu/mytools/StateGenerator.java:18-19 | the region codes: entry i holds i, for NUMZONEVALUES entries |
| GeneratorV2.ZoneValues | GVG_AI_V2/src/raulcastilla215alu/mytools/StateGenerator.java:18-19 | the loop fills zoneValues with the region codes |
| GeneratorV2.ToStates | GVG_AI_V2/src/raulcastilla215alu/mytools/StateGenerator.java:69-79 | one state per tuple, built by update, in order |
| GeneratorV2.Generate | GVG_AI_V2/src/raulcastilla215alu/mytools/StateGenerator.java:17-35 | generate returns the state space |
| GeneratorV2.SpaceSize | GVG_AI_V2/src/raulcastilla215alu/mytools/StateGenerator.java:17-35 | 10 x 10 x 2 x 2 = 400 states |
| GeneratorV2.IndexFormula | GVG_AI_V2/src/raulcastilla215alu/mytools/StateGenerator.java:17-35 | the index of a position vector is p0 + 10 p1 + 100 p2 + 200 p3 |
| GeneratorV2.SpaceAt | GVG_AI_V2/src/raulcastilla215alu/mytools/StateGenerator.java:17-35 | the state (o, d, g, f) sits at o + 10 d + 100 g + 200 f |
| GeneratorV2.SpaceOnlyPerceivable | GVG_AI_V2/src/raulcastilla215alu/mytools/StateGenerator.java:17-35 | every generated state has two regions in 0..9 and two flags |
| GeneratorV2.SpaceHasPerceivable | GVG_AI_V2/src/raulcastilla215alu/mytools/StateGenerator.java:17-35 | every such state is generated |
| GeneratorV2.SpaceMembers | GVG_AI_V2/src/raulcastilla215alu/mytools/StateGenerator.java:17-35 | a state is generated exactly when it is perceivable |
| GeneratorV2.SpaceDistinct | GVG_AI_V2/src/raulcastilla215alu/mytools/StateGenerator.java:17-35 | no state is generated twice |
| Geometry.Trunc | GVG_AI/src/raulcastilla215alu/mytools/AgentState.java:749-758 | the `(int)` cast truncates toward zero: the result is within one of its argument, on the zero side |
| Geometry.CalculateCell | GVG_AI/src/raulcastilla215alu/mytools/AgentState.java:749-758 | a position with non-negative coordinates gets a cell with non-negative coordinates |
| Geometry.CellContains | GVG_AI/src/raulcastilla215alu/mytools/AgentState.java:749-758 | a position on the board lies inside the block of the cell calculateCell gives it |
| Geometry.SquaredDistance | GVG_AI/src/raulcastilla215alu/mytools/AgentState.java:768-774 | the squared distance is non-negative, and zero exactly for the same cell |
| Geometry.CalculateDegreesFromVectorAsWritten | GVG_AI_V2/src/raulcastilla215alu/mytools/AgentState.java:356-370 | the angle both agents compute (the GVG_AI copy is the same code), as written: in [0, 360); straight up 90 and straight down 270; a vector straight left or straight right 0; otherwise in the quadrant of its signs |
| Geometry.CalculateDegreesFromVector | GVG_AI/src/raulcastilla215alu/mytools/AgentState.java:332-346 | the corrected form of these lines, not what they compute: in [0, 360), in the right quadrant for every sign of x and y, including 180 for a leftward vector; it is the corrected half of the first finding and no perception uses it |
| Geometry.CorrectionOnlyAffectsLeftwardVectors | GVG_AI/src/raulcastilla215alu/mytools/AgentState.java:332-346 | away from leftward vectors the corrected and the as-written definitions agree |
| Geometry.LeftwardVectorAsWritten | GVG_AI_V2/src/raulcastilla215alu/mytools/AgentState.java:356-370 | (-1, 0) is reported as 0 degrees as written, and 180 once corrected |
| Geometry.Rem360 | GVG_AI/src/raulcastilla215alu/mytools/AgentState.java:315-321 | Java's `% 360` on floats: the result takes the sign of the dividend, lies within one turn, and differs by whole turns |
| Geometry.NormaliseDegrees | GVG_AI/src/raulcastilla215alu/mytools/AgentState.java:315-321 | the normalised angle lies in [0, 360) and differs from the input by whole turns |
| Portals.ColumnPortalsSound | GVG_AI/src/raulcastilla215alu/mytools/AgentState.java:161-180 | every portal listed for a column heads one of its cells |
| Portals.ColumnPortalsComplete | GVG_AI/src/raulcastilla215alu/mytools/AgentState.java:161-180 | every portal heading a scanned cell of the column is listed |
| Portals.GridPortalsSound | GVG_AI/src/raulcastilla215alu/mytools/AgentState.java:161-180 | every listed portal heads a cell of the grid |
| Portals.GridPortalsComplete | GVG_AI/src/raulcastilla215alu/mytools/AgentState.java:161-180 | every portal heading a scanned cell of the grid is listed |
| Portals.PortalsMembers | GVG_AI/src/raulcastilla215alu/mytools/AgentState.java:161-180 | findPortals lists an observation exactly when it heads some cell and is of the portal type |
| Portals.FindPortals | GVG_AI/src/raulcastilla215alu/mytools/AgentState.java:161-180 | the double loop collects the portals column by column, top to bottom |
| Portals.NearestIndex | GVG_AI/src/raulcastilla215alu/mytools/AgentState.java:189-206 | getNearest's choice: the first non-null entry of least distance, closer than the initial bound; -1 when none is |
| Portals.GetNearest | GVG_AI/src/raulcastilla215alu/mytools/AgentState.java:189-206 | the single pass returns the nearest entry, or the first entry when none beats the bound |
| Portals.IsNeighbor | GVG_AI/src/raulcastilla215alu/mytools/AgentState.java:216-226 | neighbours lie in one row and in different cells |
| Portals.NeighborSymmetry | GVG_AI/src/raulcastilla215alu/mytools/AgentState.java:216-226 | a is b's left neighbour exactly when b is a's right neighbour; neighbours share a row and are never on both sides |
| Portals.RemoveFirst | GVG_AI/src/raulcastilla215alu/mytools/AgentState.java:250-283 | `remove(Object)` drops one occurrence when present, and changes nothing otherwise |
| Portals.RemoveDistinct | GVG_AI/src/raulcastilla215alu/mytools/AgentState.java:250-283 | with distinct cells, removing an element removes that position, and no remaining observation shares its cell |
| Portals.ScanLeft | GVG_AI/src/raulcastilla215alu/mytools/AgentState.java:255-264 | the left loop moves observations to the front of the neighbours, loses nothing, and reports a change exactly when it moved one |
| Portals.ScanRight | GVG_AI/src/raulcastilla215alu/mytools/AgentState.java:266-275 | the right loop moves observations to the end of the neighbours, loses nothing, and reports a change exactly when it moved one |
| Portals.ScanPair | GVG_AI/src/raulcastilla215alu/mytools/AgentState.java:250-283 | one pass keeps the old neighbours together, in their row, and keeps them a run of adjacent cells |
| Portals.GetNeighborsRec | GVG_AI/src/raulcastilla215alu/mytools/AgentState.java:250-283 | the recursion ends with a run in the seed's row with no neighbour left on either side; nothing is lost |
| Portals.GetNeighbors | GVG_AI/src/raulcastilla215alu/mytools/AgentState.java:236-240 | the run grown from the seed contains it, lies in its row and, with distinct cells, covers adjacent cells |
| Portals.MiddleIndexAsWritten | GVG_AI/src/raulcastilla215alu/mytools/AgentState.java:291-294 | `Math.round(size / 2 - 1)` is below size, and in range only from two elements up |
| Portals.MiddleIndexAsWrittenMisses | GVG_AI/src/raulcastilla215alu/mytools/AgentState.java:291-294 | a single portal gives index -1; a run of three picks its left end instead of its centre |
| Portals.MiddleIndex | GVG_AI_V2/src/raulcastilla215alu/mytools/AgentState.java:309-312 | `size / 2` is in range for every non-empty run and splits it evenly |
| Portals.GetMiddleNeighborAsWritten | GVG_AI/src/raulcastilla215alu/mytools/AgentState.java:291-294 | on a run of two or more, the element taken lies left of the centre: one or two more elements after it than before it |
| Portals.GetMiddleNeighbor | GVG_AI_V2/src/raulcastilla215alu/mytools/AgentState.java:309-312 | the element taken has as many elements after it as before it, or one fewer |
| Portals.MiddleOfRunAsWritten | GVG_AI/src/raulcastilla215alu/mytools/AgentState.java:291-294 | in a run of adjacent cells the first agent's middle neighbour lies \|run\| / 2 - 1 columns right of the left end |
| Portals.MiddleOfRun | GVG_AI_V2/src/raulcastilla215alu/mytools/AgentState.java:309-312 | the middle neighbour of a run lies in its central cell |
| Portals.LocatePortal | GVG_AI_V2/src/raulcastilla215alu/mytools/AgentState.java:320-326 | the chosen portal is the element at index size / 2 of the run grown around the portal nearest the agent; it is one of the grid's portals, in that portal's row |
| Portals.NearestPortal | GVG_AI/src/raulcastilla215alu/mytools/AgentState.java:189-206 | getNearest over findPortals' list: one of the grid's portals, and no portal is nearer whenever one beats the initial bound |
| Portals.NearestRun | GVG_AI/src/raulcastilla215alu/mytools/AgentState.java:302-305 | the run getNeighbors grows around the nearest portal: it holds that portal, lies in its row, is drawn from the portals, no portal left over extends it on either side, and with distinct cells it covers adjacent cells |
| Portals.GrownRunOfNeighbor | GVG_AI/src/raulcastilla215alu/mytools/AgentState.java:236-283 | a portal beside the seed makes the grown run hold two portals or more |
| Portals.MiddleInRun | GVG_AI/src/raulcastilla215alu/mytools/AgentState.java:302-308 | every element of the grown run is one of the grid's portals, in the nearest portal's row |
| Portals.LocatePortalAsWritten | GVG_AI/src/raulcastilla215alu/mytools/AgentState.java:302-308 | when a portal sits beside the nearest one, the chosen portal is the element at index size / 2 - 1 of the run grown around the nearest portal; it is one of the grid's portals, in that portal's row |
| Walls.RowOf | GVG_AI/src/raulcastilla215alu/mytools/AgentState.java:459-476 | getRow has one entry per column; what each entry is (the column's non-player head, or null) is stated by Walls.RowOfAt |
| Walls.CreateNullArrayObservation | GVG_AI/src/raulcastilla215alu/mytools/AgentState.java:439-447 | a fresh list of `length` nulls |
| Walls.GetRow | GVG_AI/src/raulcastilla215alu/mytools/AgentState.java:459-476 | a fresh list holding the head of each column's cell in the row: row 0 for a negative index, nulls past the last row |
| Walls.Projected | GVG_AI/src/raulcastilla215alu/mytools/AgentState.java:516-523 | project keeps A's entries and fills only its nulls, from B |
| Walls.Project | GVG_AI/src/raulcastilla215alu/mytools/AgentState.java:516-523 | A is updated in place to its projection and returned |
| Walls.WithoutPlayers | GVG_AI/src/raulcastilla215alu/mytools/AgentState.java:526-532 | no player entry remains, and every other entry is kept |
| Walls.RemoveAgentObservation | GVG_AI/src/raulcastilla215alu/mytools/AgentState.java:526-532 | the player entries are nulled in place |
| Walls.Walls | GVG_AI/src/raulcastilla215alu/mytools/AgentState.java:543-571 | the projection has one entry per column; Walls.WallsFirst states that each entry is the first non-player observation going down the rows searched, or null |
| Walls.RowOfAt | GVG_AI/src/raulcastilla215alu/mytools/AgentState.java:459-476 | a row contributes to a column exactly its non-player head |
| Walls.WallsFirst | GVG_AI/src/raulcastilla215alu/mytools/AgentState.java:543-571 | each column of the projection holds the first non-player observation going down the rows searched, or null when there is none |
| Walls.SearchWalls | GVG_AI/src/raulcastilla215alu/mytools/AgentState.java:543-571 | searchWalls along AXISY returns that projection as a fresh list |
| Walls.IsCollisionPossible | GVG_AI/src/raulcastilla215alu/mytools/AgentState.java:584-607 | true exactly when a block sits in the reference slot or a neighbouring slot inside the list |
| Walls.IsBlock | GVG_AI/src/raulcastilla215alu/mytools/AgentState.java:606 | a slot holding a block is never read as the portal or the avatar |
| AgentStates.DegreesToRegion | GVG_AI/src/raulcastilla215alu/mytools/AgentState.java:370-412 | the zone of every angle in [0, 360), for both frames: the 30-degree green zones around 90 (upper) or 270 (lower), the red zones beyond; -1 is never returned |
| AgentStates.LowerFrameMirrorsUpper | GVG_AI/src/raulcastilla215alu/mytools/AgentState.java:370-412 | the lower frame is the upper one reflected in the horizontal axis |
| AgentStates.GreenBands | GVG_AI/src/raulcastilla215alu/mytools/AgentState.java:883-899 | an angle is in a green zone exactly when it is within 45..135 (upper) or 225..315 (lower) |
| AgentStates.IsGreenZone | GVG_AI/src/raulcastilla215alu/mytools/AgentState.java:883-899 | a green code is a zone code other than the two red ones, and a zone code that is not green is red |
| AgentStates.Turned | GVG_AI/src/raulcastilla215alu/mytools/AgentState.java:144-152 | LEFT adds 0.2 radians, RIGHT removes them, any other action keeps the angle |
| AgentStates.TurnsCancel | GVG_AI/src/raulcastilla215alu/mytools/AgentState.java:144-152 | a left turn then a right turn, or the reverse, restores the angle |
| AgentStates.PerceiveOrientation | GVG_AI/src/raulcastilla215alu/mytools/AgentState.java:315-321 | the orientation is a zone code |
| AgentStates.NormaliseFullTurn | GVG_AI/src/raulcastilla215alu/mytools/AgentState.java:315-321 | adding 360 degrees does not change the normalised angle |
| AgentStates.OrientationFullTurn | GVG_AI/src/raulcastilla215alu/mytools/AgentState.java:315-321 | a full turn of the agent leaves its orientation zone unchanged |
| AgentStates.PerceiveDisplacement | GVG_AI/src/raulcastilla215alu/mytools/AgentState.java:355-361 | the displacement is a zone code; a horizontal heading, leftward or rightward, is the right red zone because the as-written angle gives it 0 degrees |
| AgentStates.DisplacementZones | GVG_AI/src/raulcastilla215alu/mytools/AgentState.java:355-361 | a rising avatar is in a red zone; one falling straight down, or at rest, is in the central green zone |
| AgentStates.PerceiveCompass | GVG_AI/src/raulcastilla215alu/mytools/AgentState.java:420-429 | EAST or WEST exactly when the portal is right or left, NORTH exactly when it is straight up, SOUTH otherwise and without a portal |
| AgentStates.CompassLeadsToPortal | GVG_AI/src/raulcastilla215alu/mytools/AgentState.java:420-429 | one cell along the compass always brings the agent strictly closer to a portal it is not on |
| AgentStates.OverPosition | GVG_AI/src/raulcastilla215alu/mytools/AgentState.java:693-695 | A is over B exactly when B is under A; then A is neither under, left nor right of B; of two different cells one is over, under, left or right of the other |
| AgentStates.UnderPosition | GVG_AI/src/raulcastilla215alu/mytools/AgentState.java:704-706 | A under B is never A left or right of B, and no cell is under itself |
| AgentStates.LeftPosition | GVG_AI/src/raulcastilla215alu/mytools/AgentState.java:715-717 | A is left of B exactly when B is right of A, and then A is not right of B |
| AgentStates.RightPosition | GVG_AI/src/raulcastilla215alu/mytools/AgentState.java:726-728 | no cell is right of itself |
| AgentStates.ObeyCompass | GVG_AI/src/raulcastilla215alu/mytools/AgentState.java:653-684 | TRUE for a move along the previous compass, FALSE against it, NONE for no move along that axis, ERROR exactly for a non-compass code |
| AgentStates.ReversedMove | GVG_AI/src/raulcastilla215alu/mytools/AgentState.java:653-684 | reversing a move turns an obeyed compass into a disobeyed one |
| AgentStates.DownWalls | GVG_AI/src/raulcastilla215alu/mytools/AgentState.java:617-635 | the projected rows under the agent have one entry per column; AgentStates.CorrectionSound and AgentStates.CorrectionComplete state what the compass correction reads from them (a block first below the agent in its column or a neighbouring one) |
| AgentStates.CorrectedCompass | GVG_AI/src/raulcastilla215alu/mytools/AgentState.java:617-635 | the compass is kept, or a sideways compass becomes NORTH |
| AgentStates.CorrectionSound | GVG_AI/src/raulcastilla215alu/mytools/AgentState.java:617-635 | a sideways compass becomes NORTH only when, in a column within one of the agent's, the first obstacle at most three rows below is a block |
| AgentStates.CorrectionComplete | GVG_AI/src/raulcastilla215alu/mytools/AgentState.java:617-635 | such a block always turns a sideways compass into NORTH |
| AgentStates.PerceiveFast | GVG_AI/src/raulcastilla215alu/mytools/AgentState.java:737-739 | TRUE exactly when the speed exceeds 5.5 |
| AgentStates.FeaturesInSpace | GVG_AI/src/raulcastilla215alu/mytools/AgentState.java:110-133 | every state perceive stores has a row in the table over the generated states |
| AgentStates.AgentState.constructor | GVG_AI/src/raulcastilla215alu/mytools/AgentState.java:60-65 | the first perception: the landing portal is the element at index size / 2 - 1 of the run around the nearest portal (a portal beside the nearest one is required); the agent's cell and real position, the score, the turned angle, the four features from the as-written angle, the wall below recomputed from no previous wall, no end-of-game flag |
| AgentStates.AgentState.Copy | GVG_AI/src/raulcastilla215alu/mytools/AgentState.java:73-90 | features, cells, positions, angle, score, block size and dead flag are copied; the winner flag and nearest wall are not |
| AgentStates.AgentState.Perceive | GVG_AI/src/raulcastilla215alu/mytools/AgentState.java:98-134 | position, cell and score are read; flags cleared; a known portal is kept, otherwise the landing portal is the element at index size / 2 - 1 of the run around the nearest portal; the angle turns; the four features, from the as-written angle, are stored |
| AgentStates.AgentState.PerceiveFeatures | GVG_AI/src/raulcastilla215alu/mytools/AgentState.java:110-133 | the angle turns and the four features are stored: the displacement from the as-written angle, the compass corrected; the nearest wall follows the two correctCompass calls |
| AgentStates.AgentState.UpdateOrientation | GVG_AI/src/raulcastilla215alu/mytools/AgentState.java:144-152 | the angle turns by the last action |
| AgentStates.AgentState.UpdatePortalPos | GVG_AI/src/raulcastilla215alu/mytools/AgentState.java:302-308 | the portal now known is the element at index size / 2 - 1 of the run grown around the portal nearest the agent, given a portal beside that one |
| AgentStates.AgentState.CorrectCompass | GVG_AI/src/raulcastilla215alu/mytools/AgentState.java:617-635 | returns the corrected compass and records or clears the nearest wall only for a sideways compass |
| AgentStates.AgentState.Update | GVG_AI/src/raulcastilla215alu/mytools/AgentState.java:133 | the four features are read from the array |
| AgentStates.AgentState.SetAgentDead | GVG_AI/src/raulcastilla215alu/mytools/AgentState.java:814-816 | sets the dead flag |
| AgentStates.AgentState.SetAgentWinner | GVG_AI/src/raulcastilla215alu/mytools/AgentState.java:823-825 | sets the winner flag |
| AgentStatesV2.Region | GVG_AI_V2/src/raulcastilla215alu/mytools/AgentState.java:333-345 | `(int)(degrees / STEP)` of an angle in [0, 360) is a region 0..9 |
| AgentStatesV2.RegionBounds | GVG_AI_V2/src/raulcastilla215alu/mytools/AgentState.java:333-345 | region r covers the angles from 36 r up to 36 (r + 1) |
| AgentStatesV2.Angle | GVG_AI_V2/src/raulcastilla215alu/mytools/AgentState.java:356-370 | the as-written angle in [0, 360): straight up 90, straight down 270, a horizontal vector 0 whichever way it points, otherwise in the half-plane of its y and on the side of 90 or 270 given by its x |
| AgentStatesV2.AngleScales | GVG_AI_V2/src/raulcastilla215alu/mytools/AgentState.java:400-415 | normalising (scaling by a positive factor) does not change a vector's angle |
| AgentStatesV2.PerceiveOrientation | GVG_AI_V2/src/raulcastilla215alu/mytools/AgentState.java:333-345 | the orientation is a region 0..9 |
| AgentStatesV2.OrientationFullTurn | GVG_AI_V2/src/raulcastilla215alu/mytools/AgentState.java:333-345 | a full turn of the agent leaves its orientation region unchanged |
| AgentStatesV2.DisplacementVector | GVG_AI_V2/src/raulcastilla215alu/mytools/AgentState.java:379-391 | the heading with y flipped, or the default vector when the heading is zero; never zero |
| AgentStatesV2.PerceiveDisplacement | GVG_AI_V2/src/raulcastilla215alu/mytools/AgentState.java:379-391 | the displacement is a region 0..9, and a horizontal heading gives region 0 |
| AgentStatesV2.DisplacementRegions | GVG_AI_V2/src/raulcastilla215alu/mytools/AgentState.java:379-391 | rising gives regions 0..4, falling 5..9, a horizontal heading either way 0, still 7 |
| AgentStatesV2.GoalRegion | GVG_AI_V2/src/raulcastilla215alu/mytools/AgentState.java:400-415 | the portal's direction is a region 0..9: 0 on the portal or level with it, 2 with the portal straight above, 7 straight below |
| AgentStatesV2.PerceiveGoal | GVG_AI_V2/src/raulcastilla215alu/mytools/AgentState.java:400-415 | TRUE exactly when the displacement region is the portal's region |
| AgentStatesV2.HeadingAtPortal | GVG_AI_V2/src/raulcastilla215alu/mytools/AgentState.java:400-415 | heading straight at the portal makes the goal TRUE |
| AgentStatesV2.PerceiveFast | GVG_AI_V2/src/raulcastilla215alu/mytools/AgentState.java:423-428 | a slow avatar turns fast above 6, a fast one stays fast above 4.5 |
| AgentStatesV2.FastHysteresis | GVG_AI_V2/src/raulcastilla215alu/mytools/AgentState.java:423-428 | above 6 always fast, at most 4.5 always slow, in between the flag is kept |
| AgentStatesV2.FeaturesInSpace | GVG_AI_V2/src/raulcastilla215alu/mytools/AgentState.java:114-152 | every state perceive stores has a row in the table over the generated states |
| AgentStatesV2.AgentState.constructor | GVG_AI_V2/src/raulcastilla215alu/mytools/AgentState.java:68-76 | the first perception: the landing portal is the element at index size / 2 of the run around the nearest portal; position, cell, speed, score, the turned angle, the four features from the as-written angle, no end-of-game flag |
| AgentStatesV2.AgentState.Copy | GVG_AI_V2/src/raulcastilla215alu/mytools/AgentState.java:84-106 | features, cells, positions, vectors, speed, angle, score, block size and dead flag are copied; the winner flag is not |
| AgentStatesV2.AgentState.Perceive | GVG_AI_V2/src/raulcastilla215alu/mytools/AgentState.java:114-152 | position, speed and score are read; flags cleared; a known portal is kept, otherwise the landing portal is the element at index size / 2 of the run around the nearest portal; the angle turns; the features, from the as-written angle, are stored, the goal judged on the new displacement and the fast flag on the old one |
| AgentStatesV2.AgentState.PerceiveAttributes | GVG_AI_V2/src/raulcastilla215alu/mytools/AgentState.java:117-127 | position, cell, speed and score are read, both flags cleared |
| AgentStatesV2.AgentState.PerceiveFeatures | GVG_AI_V2/src/raulcastilla215alu/mytools/AgentState.java:133-151 | the angle turns and the four features, from the as-written angle, are stored in position order |
| AgentStatesV2.AgentState.UpdateOrientation | GVG_AI_V2/src/raulcastilla215alu/mytools/AgentState.java:162-170 | the angle turns by the last action |
| AgentStatesV2.AgentState.UpdatePortalPos | GVG_AI_V2/src/raulcastilla215alu/mytools/AgentState.java:320-326 | the portal now known is the element at index size / 2 of the run grown around the portal nearest the agent |
| AgentStatesV2.AgentState.Update | GVG_AI_V2/src/raulcastilla215alu/mytools/AgentState.java:151 | the four features are read from the array |
| AgentStatesV2.AgentState.SetAgentDead | GVG_AI_V2/src/raulcastilla215alu/mytools/AgentState.java:542-544 | sets the dead flag |
| AgentStatesV2.AgentState.SetAgentWinner | GVG_AI_V2/src/raulcastilla215alu/mytools/AgentState.java:551-553 | sets the winner flag |
| Updates.Clock.constructor | GVG_AI/src/raulcastilla215alu/mytools/QLearning.java:22 | the tick counter starts at 0 |
| Updates.Clock.Tick | GVG_AI/src/raulcastilla215alu/mytools/QLearning.java:125 | the tick counter grows by one |
| Updates.NewQValue | GVG_AI/src/raulcastilla215alu/mytools/QLearning.java:62-63 | the update shrinks the distance to the sample by the factor 1 - alpha |
| Updates.LearntCells | GVG_AI/src/raulcastilla215alu/mytools/QLearning.java:60-69 | after the update Q(previous, action) moves toward reward + 0.5 max Q(current), every other cell reads as before, and the shape is kept |
| Updates.VisitedCells | GVG_AI_V2/src/raulcastilla215alu/mytools/QLearning.java:82 | counting a visit adds one to (previous, action) and leaves every other count alone |
| Updates.NewQValueBetween | GVG_AI/src/raulcastilla215alu/mytools/QLearning.java:62-63 | with alpha in (0, 1] the new value lies between the old value and the sample; alpha 1 jumps to the sample |
| Updates.NewQValueStrict | GVG_AI/src/raulcastilla215alu/mytools/QLearning.java:62-63 | with alpha in (0, 1) a value away from the sample moves and does not reach it |
| Updates.AnnealedRate | GVG_AI/src/raulcastilla215alu/mytools/QLearning.java:121-126 | the rate `scale * CONSTANT / (CONSTANT + time)` lies in (0, scale] |
| Updates.AnnealedRateDecreases | GVG_AI/src/raulcastilla215alu/mytools/QLearning.java:121-126 | the rate starts at scale and falls strictly with every tick |
| Updates.AnnealedRateVanishes | GVG_AI/src/raulcastilla215alu/mytools/QLearning.java:121-126 | the rate falls below any positive bound after enough ticks |
| Learning.Shaping | GVG_AI/src/raulcastilla215alu/mytools/QLearning.java:87-96 | a shaping term is +100 exactly when its condition holds, -100 exactly when it fails |
| Learning.Reward | GVG_AI/src/raulcastilla215alu/mytools/QLearning.java:79-98 | away from the end of the game the reward is one of -300, -100, 100, 300 |
| Learning.DeathCosts | GVG_AI/src/raulcastilla215alu/mytools/QLearning.java:83 | dying costs exactly 500 against the same states |
| Learning.SlowLandingBeatsFastLanding | GVG_AI/src/raulcastilla215alu/mytools/QLearning.java:84-86 | every slow win earns at least 900 and every fast win at most -200 |
| Learning.RewardBounds | GVG_AI/src/raulcastilla215alu/mytools/QLearning.java:79-98 | the reward lies in [-1300, 1300] |
| Learning.QLearning.constructor | GVG_AI/src/raulcastilla215alu/mytools/QLearning.java:36-41 | the learner uses the given table, with alpha = epsilon = 0.8 |
| Learning.QLearning.Learn | GVG_AI/src/raulcastilla215alu/mytools/QLearning.java:60-69 | Q(previous, lastAction) becomes (1 - alpha) Q + alpha (reward + 0.5 max Q(current)) with the old alpha; no other cell changes; the rates anneal; the clock ticks; the next action is epsilon-greedy |
| Learning.QLearning.NextAction | GVG_AI/src/raulcastilla215alu/mytools/QLearning.java:107-116 | a random action when the draw is below epsilon, the first best action otherwise |
| Learning.QLearning.UpdateConstants | GVG_AI/src/raulcastilla215alu/mytools/QLearning.java:121-126 | alpha and epsilon become 0.9 * 10000 / (10000 + time), then time grows by one |
| LearningV2.Reward | GVG_AI_V2/src/raulcastilla215alu/mytools/QLearning.java:97-103 | the reward is always 0 |
| LearningV2.QLearning.constructor | GVG_AI_V2/src/raulcastilla215alu/mytools/QLearning.java:41-48 | the learner uses both tables, with alpha = epsilon = 0.8 |
| LearningV2.QLearning.Learn | GVG_AI_V2/src/raulcastilla215alu/mytools/QLearning.java:76-87 | the same update with reward 0; the visit count of (previous, lastAction) grows by one and no other count changes; the rates anneal; the next action is epsilon-greedy |
| LearningV2.QLearning.NextAction | GVG_AI_V2/src/raulcastilla215alu/mytools/QLearning.java:112-121 | a random action when the draw is below epsilon, the first best action otherwise |
| LearningV2.QLearning.UpdateConstants | GVG_AI_V2/src/raulcastilla215alu/mytools/QLearning.java:126-131 | alpha and epsilon become 0.8 * 5000 / (5000 + time), then time grows by one |
| Brains.TurnedTwice | GVG_AI/src/raulcastilla215alu/mytools/Brain.java:81-92 | act perceives twice, so the agent turns twice by the last action |
| Brains.Brain.constructor | GVG_AI/src/raulcastilla215alu/mytools/Brain.java:35-47 | two separate snapshots of the first observation, a table over the generated states and the available actions (the stored one when present), a fresh learner, dead counter 0 |
| Brains.Brain.NewSnapshots | GVG_AI/src/raulcastilla215alu/mytools/Brain.java:37-38 | two separate perceptions of the first observation with the same angle and features |
| Brains.Brain.NewLearner | GVG_AI/src/raulcastilla215alu/mytools/Brain.java:41-44 | a table over the generated states (the stored one when present) and its learner at rate 0.8 |
| Brains.Brain.Learn | GVG_AI/src/raulcastilla215alu/mytools/Brain.java:55-73 | the previous snapshot copies the current one, which perceives anew; the dead counter is 0 so the transition is learnt: exactly Q(previous, lastAction) moves toward its sample and the clock ticks; the next action is epsilon-greedy |
| Brains.Brain.Observe | GVG_AI/src/raulcastilla215alu/mytools/Brain.java:56-65 | the snapshot copy, the perception, the last action, and the dead counter reset because perceiving clears the dead flag |
| Brains.Brain.Act | GVG_AI/src/raulcastilla215alu/mytools/Brain.java:81-92 | after the two perceptions the answer is the first best action of the current state |
| BrainsV2.Brain.constructor | GVG_AI_V2/src/raulcastilla215alu/mytools/Brain.java:35-46 | two separate snapshots of the first observation, the Q-table (the stored one when present), zeroed visit counts and their learner |
| BrainsV2.Brain.NewSnapshots | GVG_AI_V2/src/raulcastilla215alu/mytools/Brain.java:37-38 | two separate perceptions of the first observation with the same angle and features |
| BrainsV2.Brain.NewLearner | GVG_AI_V2/src/raulcastilla215alu/mytools/Brain.java:41-45 | the Q-table over the generated states, the visit counts all 0, and their learner at rate 0.8 |
| BrainsV2.Brain.Learn | GVG_AI_V2/src/raulcastilla215alu/mytools/Brain.java:54-60 | every transition is learnt: Q and the visit count of (previous, lastAction) change and nothing else; the clock ticks; the chosen next action becomes the last action |
| BrainsV2.Brain.Observe | GVG_AI_V2/src/raulcastilla215alu/mytools/Brain.java:55-57 | the snapshot copy, the perception and the observed last action |
| BrainsV2.Brain.Step | GVG_AI_V2/src/raulcastilla215alu/mytools/Brain.java:58 | the learner's update of the two snapshots and the last action |
| BrainsV2.Brain.LearnLastAction | GVG_AI_V2/src/raulcastilla215alu/mytools/Brain.java:62-71 | a final score of 0 marks the agent dead, any other marks it the winner; then the last transition is learnt once more |
| BrainsV2.Brain.Act | GVG_AI_V2/src/raulcastilla215alu/mytools/Brain.java:79-88 | perceives the observation and answers ACTION_RIGHT |

## Left out

- File I/O: `Matrix.toCSV`'s write, `readCSV`'s file access, `IOModule`,
  `saveQTable`, `saveVisitedStates` and the `History.txt` log. Files are
  outside the model; the stored table is the `stored` parameter, and the CSV
  text is modelled with its reader.
- Csv.ParseCsv: a reference reader for unquoted cells. The opencsv
  `CSVReader` also handles quoted cells, which the writer never produces.
- Matrices.Matrix.ToString: cells are shown through a `show` parameter.
  `Float.toString` and `castStr2Double`/`parseFloat` are not modelled, and
  the table holds the reals directly.
- `SizeException` is caught and printed in the source. The model returns
  `false` and leaves the matrix unchanged, which is what the caller observes.
- `Matrix.getHeight`, `QTable.get`, `getAlpha`, the `is*`/`get*` accessors
  and the `toString` debug texts of AgentState. They are plain reads, kept
  as functions without contracts, or left out as output only.
- `distanceToPortal` and `angleBetweenVectors` in GVG_AI_V2, and `distance`:
  they are used only in debug output, or only as an order. The model compares
  squared cell distances, so `Math.sqrt` is not needed.
- Floating point: `float` and `double` are reals. `Math.atan`, `Math.PI` and
  `Math.round` are modelled by stated properties or literals; rounding error
  is not modelled.
- Randomness: `Random.nextFloat` is a draw parameter or a choice from
  [0, 1).
- The GVG_AI `Brain` builds its table from the six-feature GVG_AI generator,
  but its `AgentState` stores four zone features. The six-feature `State`
  is not what that `AgentState` extends, so the model keys that Brain's
  table by the four-feature states of the GVG_AI_V1 generator. The
  six-feature `State` and its generator are modelled on their own.
- The zone, compass and flag codes that the first `AgentState` uses belong
  to a `State` class that is not part of this model, so their values are
  chosen here. The model relies on these choices:
  - the codes of one feature are distinct, and the sentinels NONE and ERROR
    differ from every code;
  - the zone codes are the range 0..4 and the compass codes the range 0..3,
    which is how ZoneStates.IsZone and ZoneStates.IsCompass test them;
  - each zone code equals its own position among the zone codes, which
    GeneratorV1.SpaceHasCodes uses to find a state's position vector;
  - the literal 0 that perceive passes to its second `correctCompass` call
    (GVG_AI/src/raulcastilla215alu/mytools/AgentState.java:131) is not EAST or
    WEST, so that call never changes the compass. Here 0 is NORTH, as in the
    GVG_AI `State` (GVG_AI/src/raulcastilla215alu/mytools/State.java:29).
- GVG_AI_V2's `QTable` is not part of this model. Its two-argument
  constructor is modelled as `QTable.WithZeros`.
- The AXISX branches of `getRow`, `getColumn`, `searchWalls` and
  `isCollisionPossible`: `correctCompass` only calls them along AXISY.
- `distanceToNearestWall`: it feeds no feature.
- `perceive` needs a portal on the board the first time: `updatePortalPos`
  takes element 0 of an empty list and throws without one. The model
  requires a portal.
- AgentStates.AgentState.UpdatePortalPos, AgentStates.AgentState.Perceive,
  the constructor and Portals.LocatePortalAsWritten require, in the first
  agent, a portal beside the nearest one. With a lone portal, getMiddleNeighbor
  computes index -1 and `get` throws; the requires excludes that case.
- Matrices.Matrix.AddColumnAt: the source throws IndexOutOfBoundsException
  in two cases:
  - on an empty matrix, a non-empty column at a non-zero index makes
    `matrix.add(index, new ArrayList<>())` fail on the empty row list
    (GVG_AI/src/raulcastilla215alu/matrix/Matrix.java:208);
  - on a filled matrix, an index outside a row fails the row's `add`
    (line 213).
  The requires excludes both cases rather than modelling the exception.
- Matrices.Matrix.AddRowAt, Matrices.Matrix.RemoveRow, Matrices.Matrix.RemoveColumn:
  the source throws IndexOutOfBoundsException in three cases, and each
  requires excludes its case rather than modelling the exception:
  - AddRowAt: a row of the right width at an index outside 0..size makes
    `matrix.add(index, newRow)` throw after the width check has passed
    (GVG_AI/src/raulcastilla215alu/matrix/Matrix.java:152);
  - RemoveRow: an index outside 0..size-1 makes `matrix.remove(indexRow)`
    throw (line 228);
  - RemoveColumn: on a matrix with rows, a row too short for the index (or a
    negative index) makes `get(indexRow).remove(indexColumn)` throw (line
    238). The rows before it have already lost their cell, so the source
    leaves the matrix partly edited; the model does not capture that partial
    edit. A matrix with no rows accepts any index and is left unchanged, as
    in the source.
- `goalVector` in GVG_AI_V2 is normalised in the source. The model uses the
  unnormalised vector; AgentStatesV2.AngleScales shows that this does not
  change the region. `orientationVector` (the cosine and sine of the
  orientation) feeds no feature and is left out.
- The game glue (`MyAgent`, `VectorAgent`, `ScalarBrain`) is not part of
  this model. Neither are the game ticks and the framework's
  `StateObservation`, which is modelled as the `GameObservation` value.
- Brains.Brain.Learn: the `ACTION_NIL` gate for repeated deaths or a missing
  portal cannot close once perceive has run: perceive clears the dead flag
  and keeps the portal. Its branch is modelled, and the contract states only
  the learning outcome.
- Portals.GetNeighborsRec: the recursion is a loop with a decreasing count
  of remaining observations. A removal inside a scan skips the element that
  slides into its place; this is modelled as written.
- Learning.QLearning.UpdateConstants and
  LearningV2.QLearning.UpdateConstants: the `(float)` cast of the rate is
  not modelled (reals).

## Findings

| source | as written | input that shows it | evidently intended | confidence | as-written member | corrected member |
|---|---|---|---|---|---|---|
| GVG_AI_V2/src/raulcastilla215alu/mytools/AgentState.java:356-370 and GVG_AI/src/raulcastilla215alu/mytools/AgentState.java:332-346 | the quadrant corrections test `x < 0 && y > 0`, `x < 0 && y < 0` and `x > 0 && y < 0`; a vector with `x < 0` and `y == 0` matches none of them and keeps `atan(0) = 0` degrees | the vector (-1, 0), pointing straight left | 180 degrees; every leftward vector gets +180 | not executed | Geometry.LeftwardVectorAsWritten | Geometry.CalculateDegreesFromVector |
| GVG_AI/src/raulcastilla215alu/mytools/AgentState.java:291-294 | the middle neighbour is `Math.round(size/2 - 1)` with integer division | a run of one portal: index -1, so `get` throws; a run of three picks its left end | `size / 2`, as GVG_AI_V2 writes it (GVG_AI_V2/src/raulcastilla215alu/mytools/AgentState.java:309-312) | not executed | Portals.MiddleIndexAsWrittenMisses | Portals.MiddleOfRun |
