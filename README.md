# Synapse in Dafny

Synapse trains feed-forward neural networks. A net is a chain of layers: each layer has a weight matrix, a bias row and an activation function. A sample service supplies training and testing samples. A teacher runs back-propagation epochs over batches of samples. After each epoch a tester measures the error and the hit rate and decides whether to stop. The stop reasons are the error limit, the epoch limit, or overfitting (a rising test-error trend). A training result records the epochs, the best net and the error history. On top of this, an experimenter sweeps combinations of net, training and sample-service parameters and collects one result per combination.

This project models that core and proves properties of the model:

- `wrappers.dfy` has `Option`/`Result` and the Java exceptions as an `Error` datatype. It also has Java `int`/`long` arithmetic: 32-bit wrap-around and `Math.round`.
- `matrix_algebra.dfy` defines matrices as values. It gives the mathematical meaning of every matrix operation: entries, rows, columns, products, transposes and pointwise maps.
- `matrix_java.dfy` has the `MatrixJava` class. It holds a row-major `array<real>` buffer, and its loops are proved against `matrix_algebra.dfy`.
- `matrix_utils.dfy` has the in-place `MatrixUtils` operations, which write into a target matrix.
- `activation.dfy` covers the activation kinds, their transfer functions and derivatives, and the `Activation` class.
- `nets.dfy` covers `Net` and `NetParameters`: construction checks, the forward pass, clone, and externalisation.
- `streams.dfy` models Java object streams as a sequence of tokens. It defines the read and write primitives the externalisation code uses.
- `rates.dfy` has the constant, linear and exponent learning-rate schedules and their externalisation.
- `samples.dfy` covers `Sample`, the list sample service, batches, and the service report.
- `backprop.dfy` defines back-propagation as values. It covers the forward and backward passes, the weight and bias updates, batches and epochs.
- `simple_teacher.dfy` and `middle_teacher.dfy` contain the two teachers. Each is a class whose `Learn` loop runs epochs until its tester stops it.
- `testers.dfy` has the serial tester and the parallel tester's error sum.
- `training.dfy` covers `TrainingParameters`, `TrainingResult` and stop reasons, the moving average of errors, and the duration text.
- `generators.dfy` covers `ArraysGenerator`: stepped, evenly spaced and logarithmic ranges of doubles.
- `experiments.dfy` covers experiment parameters and results, the parameter factory, the experimenter's sweep, and reports.
- `text.dfy` has the string helpers: split, trim, join, and number parsing and printing.
- `desktop.dfy` has the layer-structure parser of `NetStructureController` and the `Extension` file filters.
- `converters.dfy` covers `ImageService`: bytes to intensities in [0, 1].
- `datasets.dfy` has the CIFAR-10 record reader and the Iris line converter.

Transcendental functions (`exp`, `tanh`, `atan`, `sin`, `log`) are parameters wherever the source calls them. So are formatting of doubles (`render`), `Double.parseDouble` (`parse`) and hashing (`hash`). Reading files, images and sockets is left out. Where the source reads a stream, the stream's contents are a parameter.

## Model

| member | source | states |
|---|---|---|
| MatrixAlgebra.Create | SynapseCore/src/main/java/com/synapse/core/matrix/MatrixJava.java:67-74 | the data constructor succeeds exactly for positive rows and columns and rows·columns data entries; rows are refused before columns, each with IllegalArgumentException |
| MatrixAlgebra.Update | SynapseCore/src/main/java/com/synapse/core/matrix/MatrixUtils.java:78 | `setItem(i, j, v)` changes entry (i, j) to v and no other entry, keeping the shape |
| MatrixAlgebra.Elementwise | SynapseCore/src/main/java/com/synapse/core/matrix/MatrixJava.java:143-190 | `add`/`sub`/`prod` succeed exactly on equal shapes, rows mismatch reported before columns; entry k of the result is a[k] ∘ m[k] |
| MatrixAlgebra.ScaleAdd | SynapseCore/src/main/java/com/synapse/core/matrix/MatrixJava.java:276-285 | `scaleAdd(s, m)` succeeds exactly on equal shapes and gives entry k = a[k] + s·m[k] |
| MatrixAlgebra.Mul | SynapseCore/src/main/java/com/synapse/core/matrix/MatrixJava.java:199-212 | `mul` is defined exactly when a's columns equal m's rows; the result is rows×m.columns with (i, j) the dot product of row i and column j |
| MatrixAlgebra.TMul | SynapseCore/src/main/java/com/synapse/core/matrix/MatrixJava.java:214-228 | `tMul` is defined exactly on equal row counts; (i, j) is column i of a dotted with column j of m |
| MatrixAlgebra.MulT | SynapseCore/src/main/java/com/synapse/core/matrix/MatrixJava.java:230-244 | `mulT` is defined exactly on equal column counts; (i, j) is row i of a dotted with row j of m |
| MatrixAlgebra.Transpose | SynapseCore/src/main/java/com/synapse/core/matrix/MatrixJava.java:252-259 | `Trans` swaps the dimensions and puts original entry (i, j) at (j, i) |
| MatrixAlgebra.SqrsSumNonNegative | SynapseCore/src/main/java/com/synapse/core/matrix/MatrixJava.java:335-339 | `sqrsSum` is never negative |
| MatrixAlgebra.AverageConstant | SynapseCore/src/main/java/com/synapse/core/matrix/MatrixJava.java:346-348 | the average of a matrix whose entries all equal c is c |
| MatrixAlgebra.ZerosAverage | SynapseCore/src/main/java/com/synapse/core/matrix/MatrixJava.java:351-353 | a zero-filled matrix keeps its shape and averages to 0 |
| MatrixAlgebra.TransposeRowColumn | SynapseCore/src/main/java/com/synapse/core/matrix/MatrixJava.java:252-259 | row i of the transpose is column i of the original and column j is row j |
| MatrixAlgebra.TransposeInvolution | SynapseCore/src/main/java/com/synapse/core/matrix/MatrixJava.java:252-259 | transposing twice gives back the original matrix |
| MatrixAlgebra.TMulIsTransposeMul | SynapseCore/src/main/java/com/synapse/core/matrix/MatrixJava.java:214-228 | `tMul(a, b)` equals `mul(T(a), b)`, with the same definedness |
| MatrixAlgebra.MulTIsMulTranspose | SynapseCore/src/main/java/com/synapse/core/matrix/MatrixJava.java:230-244 | `mulT(a, b)` equals `mul(a, T(b))`, with the same definedness |
| MatrixAlgebra.TransposeTMul | SynapseCore/src/test/java/com/synapse/core/nets/MatrixTest.java:93-95 | `T(A).tMul(B)` equals `A.mul(B)` |
| MatrixAlgebra.MulTransposeIsMulT | SynapseCore/src/test/java/com/synapse/core/nets/MatrixTest.java:98-100 | `A.mul(T(C))` equals `A.mulT(C)` |
| MatrixAlgebra.ExternalizeRoundTrip | SynapseCore/src/main/java/com/synapse/core/matrix/MatrixJava.java:416-432 | reading back what `writeExternal` wrote restores the same matrix and leaves the rest of the stream |
| MatrixAlgebra.MulExample | SynapseCore/src/test/java/com/synapse/core/nets/MatrixTest.java:87-90 | the 2×3 matrix [1..6] times the 3×2 matrix [6..1] is the 2×2 matrix [20, 14, 56, 41] |
| Matrices.MatrixJava.New | SynapseCore/src/main/java/com/synapse/core/matrix/MatrixJava.java:46-57 | `MatrixJava(rows, columns)` refuses rows ≤ 0 then columns ≤ 0 and otherwise holds a fresh zero buffer of rows·columns entries |
| Matrices.MatrixJava.WithData | SynapseCore/src/main/java/com/synapse/core/matrix/MatrixJava.java:67-74 | the data constructor runs the dimension checks, then refuses a length other than rows·columns, and adopts the caller's array without copying |
| Matrices.MatrixJava.Generate | SynapseCore/src/main/java/com/synapse/core/matrix/MatrixJava.java:83-89 | the initializer constructor fills a fresh buffer with successive draws, in buffer order |
| Matrices.MatrixJava.GetItem | SynapseCore/src/main/java/com/synapse/core/matrix/MatrixJava.java:114-124 | `getItem` refuses a row, then a column, outside the grid and otherwise returns `array[columns·row + column]` |
| Matrices.MatrixJava.Add | SynapseCore/src/main/java/com/synapse/core/matrix/MatrixJava.java:143-152 | `add` throws on a row, then column, mismatch; otherwise a fresh matrix holding the entry sums, inputs unchanged |
| Matrices.MatrixJava.Sub | SynapseCore/src/main/java/com/synapse/core/matrix/MatrixJava.java:162-171 | `sub`: the same checks, a fresh matrix of differences, inputs unchanged |
| Matrices.MatrixJava.Prod | SynapseCore/src/main/java/com/synapse/core/matrix/MatrixJava.java:181-190 | `prod`: the same checks, a fresh matrix of entry products, inputs unchanged |
| Matrices.MatrixJava.Scale | SynapseCore/src/main/java/com/synapse/core/matrix/MatrixJava.java:267-273 | `scale(n)` returns a fresh matrix with every entry multiplied by n |
| Matrices.MatrixJava.ScaleAdd | SynapseCore/src/main/java/com/synapse/core/matrix/MatrixJava.java:276-285 | `scaleAdd(s, m)` checks rows then columns and returns a fresh a + s·m |
| Matrices.MatrixJava.Apply | SynapseCore/src/main/java/com/synapse/core/matrix/MatrixJava.java:293-299 | `apply(f)` returns a fresh matrix of f applied to each entry |
| Matrices.MatrixJava.Mul | SynapseCore/src/main/java/com/synapse/core/matrix/MatrixJava.java:199-212 | `mul` throws unless columns equal m's rows and otherwise returns a fresh matrix equal to `MatrixAlgebra.Mul` of the two values |
| Matrices.MatrixJava.TMul | SynapseCore/src/main/java/com/synapse/core/matrix/MatrixJava.java:214-228 | `tMul` throws unless the row counts agree and otherwise returns a fresh matrix equal to `MatrixAlgebra.TMul` |
| Matrices.MatrixJava.MulT | SynapseCore/src/main/java/com/synapse/core/matrix/MatrixJava.java:230-244 | `mulT` throws unless the column counts agree and otherwise returns a fresh matrix equal to `MatrixAlgebra.MulT` |
| Matrices.MatrixJava.Trans | SynapseCore/src/main/java/com/synapse/core/matrix/MatrixJava.java:252-259 | `Trans()` returns a fresh matrix equal to the transpose |
| Matrices.MatrixJava.Sum | SynapseCore/src/main/java/com/synapse/core/matrix/MatrixJava.java:324-328 | `sum` returns the entries added in buffer order |
| Matrices.MatrixJava.SqrsSum | SynapseCore/src/main/java/com/synapse/core/matrix/MatrixJava.java:335-339 | `sqrsSum` returns the squared entries added in buffer order |
| Matrices.MatrixJava.Average | SynapseCore/src/main/java/com/synapse/core/matrix/MatrixJava.java:346-348 | `average` is the sum divided by rows·columns |
| Matrices.MatrixJava.Zeros | SynapseCore/src/main/java/com/synapse/core/matrix/MatrixJava.java:351-353 | `zeros` sets every entry to 0 in the same buffer and keeps the shape |
| Matrices.MatrixJava.Clone | SynapseCore/src/main/java/com/synapse/core/matrix/MatrixJava.java:382-384 | `clone` is equal to the original over a fresh buffer, so later writes to either do not reach the other |
| Matrices.MatrixJava.WriteExternal | SynapseCore/src/main/java/com/synapse/core/matrix/MatrixJava.java:416-422 | `writeExternal` appends rows, columns, then every entry in buffer order to the stream |
| Matrices.MatrixJava.ReadExternal | SynapseCore/src/main/java/com/synapse/core/matrix/MatrixJava.java:425-432 | `readExternal` reads rows, columns (a negative product fails to allocate) and rows·columns doubles; it succeeds exactly when that reading does, leaving the read matrix and the rest of the stream, and otherwise fails with the reading's error |
| Matrices.CreateShape | SynapseCore/src/main/java/com/synapse/core/matrix/Matrix.java:21-23 | `create(rows, columns)` fails a negative rows·columns with NegativeArraySizeException before the dimension checks and otherwise yields a rows×columns matrix of zeros |
| Matrices.CreateRow | SynapseCore/src/main/java/com/synapse/core/matrix/Matrix.java:30-32 | `create(columns)` yields a 1×columns zero row vector for columns > 0 |
| Matrices.CreateVector | SynapseCore/src/main/java/com/synapse/core/matrix/Matrix.java:38-40 | `create(double... m)` yields the 1×m.length vector over m itself, for a non-empty m |
| Matrices.CreateRowOf | SynapseCore/src/main/java/com/synapse/core/matrix/Matrix.java:34-36 | `create(columns, m)` has one row and needs exactly `columns` entries |
| Matrices.ZerosAll | SynapseCore/src/main/java/com/synapse/core/matrix/Matrix.java:241-245 | static `zeros` leaves every argument, aliases included, with its shape and all entries 0 |
| MatrixUtils.ZipInto | SynapseCore/src/main/java/com/synapse/core/matrix/MatrixUtils.java:33-61 | the shared element-wise loop reads a[i] and b[i] before writing c[i], so c may alias a or b; entries past a's length keep their values, and a short c fails at its length |
| MatrixUtils.Add | SynapseCore/src/main/java/com/synapse/core/matrix/MatrixUtils.java:33-41 | `add(a, b, c)` checks a against b, then a against c; on success c holds a + b, aliasing allowed, and on failure c is untouched |
| MatrixUtils.Sub | SynapseCore/src/main/java/com/synapse/core/matrix/MatrixUtils.java:43-51 | `sub(a, b, c)`: the same checks; c holds a − b |
| MatrixUtils.Prod | SynapseCore/src/main/java/com/synapse/core/matrix/MatrixUtils.java:53-61 | `prod(a, b, c)`: the same checks; c holds the entry products |
| MatrixUtils.Scale | SynapseCore/src/main/java/com/synapse/core/matrix/MatrixUtils.java:132-138 | `scale(a, s, b)` checks a against b; b holds s·a |
| MatrixUtils.ScaleAdd | SynapseCore/src/main/java/com/synapse/core/matrix/MatrixUtils.java:140-146 | `scaleAdd(a, b, s, c)` checks only a against b; c[i] = a[i] + s·b[i] for each i of a, a short c failing part way |
| MatrixUtils.ScaleSub | SynapseCore/src/main/java/com/synapse/core/matrix/MatrixUtils.java:148-154 | `scaleSub`: the same checks; c[i] = a[i] − s·b[i] |
| MatrixUtils.Apply | SynapseCore/src/main/java/com/synapse/core/matrix/MatrixUtils.java:157-163 | `apply(a, f, b)` checks a against b; b holds f of each entry of a |
| MatrixUtils.CopyTo | SynapseCore/src/main/java/com/synapse/core/matrix/MatrixUtils.java:165-171 | `copyTo(a, b)` checks a against b; b then holds a's entries |
| MatrixUtils.Mul | SynapseCore/src/main/java/com/synapse/core/matrix/MatrixUtils.java:63-81 | `mul(a, b, c)` checks c's rows, c's columns, then a's columns against b's rows; on success c is overwritten with the product whatever it held, and on failure untouched |
| MatrixUtils.TMul | SynapseCore/src/main/java/com/synapse/core/matrix/MatrixUtils.java:83-101 | `tMul(a, b, c)` checks its three shape conditions in source order and writes aᵗ·b into c |
| MatrixUtils.MulT | SynapseCore/src/main/java/com/synapse/core/matrix/MatrixUtils.java:103-121 | `mulT(a, b, c)` checks its three shape conditions in source order and writes a·bᵗ into c |
| MatrixUtils.TransAsWritten | SynapseCore/src/main/java/com/synapse/core/matrix/MatrixUtils.java:123-130 | `trans(a, b)` as written, for any a and b, b = a included: validation passes only for a square b as wide as a, a taller a then fails at the first column past b's; when b has a buffer of its own the loops write b(j, i) = a(i, j) and leave b's other columns as they were |
| MatrixUtils.TransRejectsTransposeShape | SynapseCore/src/main/java/com/synapse/core/matrix/MatrixUtils.java:123-130 | a 1×2 matrix and a 2×1 target, the shape of its transpose, fail the as-written check but pass the intended one |
| MatrixUtils.TransCheckNeedsSquare | SynapseCore/src/main/java/com/synapse/core/matrix/MatrixUtils.java:123-130 | as written, a target shaped like the transpose passes only for a square a |
| MatrixUtils.TransAsWrittenShapes | SynapseCore/src/main/java/com/synapse/core/matrix/MatrixUtils.java:123-130 | the as-written check passes exactly when b is aColumns×aColumns |
| MatrixUtils.Trans | SynapseCore/src/main/java/com/synapse/core/matrix/MatrixUtils.java:123-130 | `trans` with the intended shape check, for any a and b, b = a included: the check's exception is the result, and a failed check leaves b untouched; when b has a buffer of its own it becomes the transpose of a |
| Nets.ReadMatrixOrNull | SynapseCore/src/main/java/com/synapse/core/nets/Net.java:125-126 | reading a matrix slot: a null token gives null, an object of another class is a ClassCastException, and every success consumes at least one token |
| Nets.ReadMatrixObject | SynapseCore/src/main/java/com/synapse/core/nets/Net.java:125-126 | a matrix slot read back: null is refused at once as a NullPointerException, which Java meets only at the slot's first use; a foreign class is a ClassCastException |
| Nets.ReadActivationOrNull | SynapseCore/src/main/java/com/synapse/core/nets/Net.java:127 | reading an activation slot: null gives null, a class that is not an activation is a ClassCastException, and a success yields exactly the first token |
| Nets.ReadActivationObject | SynapseCore/src/main/java/com/synapse/core/nets/Net.java:127 | an activation slot read back: null is refused at once as a NullPointerException (Java stores it), a foreign class a ClassCastException, a success is an activation token |
| Nets.MatrixObjectRoundTrip | SynapseCore/src/main/java/com/synapse/core/nets/Net.java:112-113 | a matrix written with `writeObject` reads back as the same matrix, leaving the following tokens untouched |
| Nets.Drawn | SynapseCore/src/main/java/com/synapse/core/nets/Net.java:40-41 | `Matrix.create(rows, columns, initializer)` succeeds exactly for positive rows and columns (rows refused first) and gives a valid matrix of that shape whose entries are the drawn values |
| Nets.SizesCheck | SynapseCore/src/main/java/com/synapse/core/nets/Net.java:31-33 | the sizes constructor accepts exactly one activation per inner layer (activations = sizes − 1) |
| Nets.MatricesCheckAsWritten | SynapseCore/src/main/java/com/synapse/core/nets/Net.java:46-49 | the matrices constructor as written accepts exactly equal weight and bias counts and one activation more than weight matrices |
| Nets.MatricesCheck | SynapseCore/src/main/java/com/synapse/core/nets/Net.java:46-49 | the corrected matrices constructor accepts exactly equal weight and bias counts and one activation per weight matrix |
| Nets.ConstructorsDisagree | SynapseCore/src/main/java/com/synapse/core/nets/Net.java:30-53 | whenever the sizes constructor accepts its arguments, the corrected matrices check accepts the net's parts and the check as written refuses them |
| Nets.SizeError | SynapseCore/src/main/java/com/synapse/core/nets/Net.java:39-42 | the layer loop of the sizes constructor fails exactly when some layer size is not positive (for at least two sizes) |
| Nets.LayerSizes | SynapseCore/src/main/java/com/synapse/core/nets/Net.java:131-138 | `getLayersSizes`: one entry more than the weight matrices, the first weight matrix's rows, then each weight matrix's columns |
| Nets.BuiltFromChained | SynapseCore/src/main/java/com/synapse/core/nets/Net.java:35-42 | a net drawn from valid sizes has chained shapes (weights[k] is sizes[k]×sizes[k+1], biases[k] is 1×sizes[k+1]) and `getLayersSizes` gives the sizes back |
| Nets.Forward | SynapseCore/src/main/java/com/synapse/core/nets/Net.java:79-85 | the result of `pass` over the first n layers, when it succeeds, is a valid matrix |
| Nets.Layer | SynapseCore/src/main/java/com/synapse/core/nets/Net.java:82 | one layer (`mul`, `add`, `apply`), when it succeeds, gives a valid matrix |
| Nets.ForwardFailurePersists | SynapseCore/src/main/java/com/synapse/core/nets/Net.java:81-83 | once a layer of `pass` fails, every longer pass fails with that same error |
| Nets.ForwardShape | SynapseCore/src/main/java/com/synapse/core/nets/Net.java:79-85 | on a chained net a 1×sizes[0] input passes every layer and leaves as a 1×(columns of the last weight matrix) row |
| Nets.Transfers | SynapseCore/src/main/java/com/synapse/core/nets/Net.java:82 | `pass` applies, layer by layer, the activator of that layer's activation object |
| Nets.ReadLayers | SynapseCore/src/main/java/com/synapse/core/nets/Net.java:124-128 | a successful layer read yields exactly n weights, n biases and n activation tokens |
| Nets.LayerRoundTrip | SynapseCore/src/main/java/com/synapse/core/nets/Net.java:111-128 | one written layer (weight, bias, activation) reads back as itself |
| Nets.LayersRoundTrip | SynapseCore/src/main/java/com/synapse/core/nets/Net.java:111-128 | n written layers read back as the same weights, biases and activations in order, leaving the tokens after them |
| Nets.PrependStep | SynapseCore/src/main/java/com/synapse/core/nets/Net.java:124-128 | reading one more layer moves that layer from the stream onto the layers read so far |
| Nets.ReadLayersLoop | SynapseCore/src/main/java/com/synapse/core/nets/Net.java:124-128 | the read loop of `readExternal` gives exactly the layers ReadLayers describes, or its first error |
| Nets.RestoreActivations | SynapseCore/src/main/java/com/synapse/core/nets/Net.java:123-127 | one fresh activation object per token, of the class the token names |
| Nets.NetRoundTrip | SynapseCore/src/main/java/com/synapse/core/nets/Net.java:109-129 | `readExternal` after `writeExternal` gives back the matrices and activation objects in order |
| Nets.Propagate | SynapseCore/src/main/java/com/synapse/core/nets/Net.java:79-85 | the loop of `pass` computes exactly the forward fold over every layer, stopping at the first shape error |
| Nets.Net.FromSizes | SynapseCore/src/main/java/com/synapse/core/nets/Net.java:30-43 | the sizes constructor fails exactly as SizesCheck, then SizeError, say; on success it adopts the activation array and its weights and biases are the drawn, chained matrices whose layer sizes are the given ones |
| Nets.Net.FromMatricesAsWritten | SynapseCore/src/main/java/com/synapse/core/nets/Net.java:45-53 | the matrices constructor as written fails exactly when its check says so and otherwise adopts the three arrays unchanged |
| Nets.Net.FromMatrices | SynapseCore/src/main/java/com/synapse/core/nets/Net.java:45-53 | the corrected matrices constructor fails exactly when the corrected check says so and otherwise adopts the three arrays unchanged |
| Nets.Net.LayersCount | SynapseCore/src/main/java/com/synapse/core/nets/Net.java:55-57 | the layer count is the weight count plus one, so at least one |
| Nets.Net.InterLayersCount | SynapseCore/src/main/java/com/synapse/core/nets/Net.java:59-61 | the inner layer count is one less than the layer count |
| Nets.Net.GetLayersSizes | SynapseCore/src/main/java/com/synapse/core/nets/Net.java:131-138 | fails with index 0 out of bounds exactly for a net without weight matrices; otherwise gives LayerSizes of the weights |
| Nets.Net.Pass | SynapseCore/src/main/java/com/synapse/core/nets/Net.java:79-85 | `pass` returns the forward fold of the input over all layers with the activators of the net's activations |
| Nets.Net.CloneAsWritten | SynapseCore/src/main/java/com/synapse/core/nets/Net.java:92-106 | the clone as written has copied weights and biases but shares the original's activation array, whose first entries are overwritten with copies |
| Nets.Net.Clone | SynapseCore/src/main/java/com/synapse/core/nets/Net.java:92-106 | the corrected clone has copied weights and biases and a fresh activation array of copies; the original is untouched |
| Nets.Net.ReadExternal | SynapseCore/src/main/java/com/synapse/core/nets/Net.java:119-129 | `readExternal` succeeds exactly when the tokens hold a layer count and that many well-formed, non-null layers; it then holds those matrices and a fresh array of activations rebuilt from their classes |
| Nets.Net.ActivationTokens | SynapseCore/src/main/java/com/synapse/core/nets/Net.java:114 | the activation tokens of the first n layers are those the activation objects write, in order |
| Nets.Net.WriteExternal | SynapseCore/src/main/java/com/synapse/core/nets/Net.java:109-116 | `writeExternal` writes the layer count and each layer's weight, bias and activation, and reading the output back gives the same matrices and activations with nothing left over |
| Nets.ParametersRoundTrip | SynapseCore/src/main/java/com/synapse/core/nets/NetParameters.java:40-56 | the parameters' `readExternal` after `writeExternal` gives the same sizes and the same activation (or null) |
| Nets.ParametersReport | SynapseCore/src/main/java/com/synapse/core/nets/NetParameters.java:59-65 | `getReport`: three lines, the header, the rendered sizes and the rendered activation |
| Nets.CreateError | SynapseCore/src/main/java/com/synapse/core/nets/NetParameters.java:23-25 | `createNet` fails exactly when the activation is null, there are no sizes or a layer size is not positive; with an activation and sizes the error is the sizes constructor's |
| Nets.NetParameters.constructor | SynapseCore/src/main/java/com/synapse/core/nets/NetParameters.java:16-21 | the parameters hold the given size array and activation |
| Nets.NetParameters.CreateNet | SynapseCore/src/main/java/com/synapse/core/nets/NetParameters.java:23-25 | `createNet` fails exactly as CreateError says; on success the net has one activation per inner layer and drawn chained matrices of the parameters' sizes |
| Nets.NetParameters.Clone | SynapseCore/src/main/java/com/synapse/core/nets/NetParameters.java:28-37 | the clone shares the size array and the activation object |
| Nets.NetParameters.ActivationToken | SynapseCore/src/main/java/com/synapse/core/nets/NetParameters.java:45 | the activation is written as null or as a token of an activation class |
| Nets.NetParameters.WriteExternal | SynapseCore/src/main/java/com/synapse/core/nets/NetParameters.java:40-47 | reading the written tokens back gives the same sizes and the same activation, or null when there is none, with nothing left over |
| Nets.NetParameters.ReadExternal | SynapseCore/src/main/java/com/synapse/core/nets/NetParameters.java:50-56 | `readExternal` succeeds exactly when the tokens hold a size count, that many sizes and an activation object or null; it then holds a fresh size array of those sizes and that activation |
| Nets.ReadSizes | SynapseCore/src/main/java/com/synapse/core/nets/NetParameters.java:51-54 | the size loop reads exactly the ints ReadInts describes into the array, or fails with its error |
| Backprop.Induced | SynapseCore/src/main/java/com/synapse/core/training/SimpleTeacher.java:156 | the induced field V = Y·W + B of a layer, when both operations succeed, is a valid matrix |
| Backprop.ForwardTrace | SynapseCore/src/main/java/com/synapse/core/training/SimpleTeacher.java:149-160 | the forward pass over n layers keeps n + 1 outputs and n induced fields, all valid, with y[0] the input |
| Backprop.TraceIsPass | SynapseCore/src/main/java/com/synapse/core/training/SimpleTeacher.java:149-160 | the teachers' forward pass succeeds exactly when the net's `pass` does, its last output is what `pass` returns, and it fails with the same exception |
| Backprop.TraceShape | SynapseCore/src/main/java/com/synapse/core/training/SimpleTeacher.java:149-160 | on a chained net a 1×sizes[0] input never fails: every output y[i+1] and field v[i] is a 1×sizes[i+1] row |
| Backprop.TraceFailurePersists | SynapseCore/src/main/java/com/synapse/core/training/SimpleTeacher.java:155-158 | the first failing layer's exception is the exception of the whole forward pass |
| Backprop.LossNonNegative | SynapseCore/src/main/java/com/synapse/core/training/SimpleTeacher.java:136-140 | the sample loss, half the sum of squares of the error, is never negative |
| Backprop.Backward | SynapseCore/src/main/java/com/synapse/core/training/SimpleTeacher.java:162-178 | the backward pass from the last layer down to layer i yields one delta and one weight correction per layer from i up, all valid |
| Backprop.BackwardFailurePersists | SynapseCore/src/main/java/com/synapse/core/training/SimpleTeacher.java:171-175 | a failure in a layer below stops the backward pass with that layer's exception |
| Backprop.BackwardShape | SynapseCore/src/main/java/com/synapse/core/training/SimpleTeacher.java:162-178 | on chained shapes the backward pass never fails; delta[k] has the shape of biases[k] and the weight correction of layer k the shape of weights[k] |
| Backprop.SampleStep | SynapseCore/src/main/java/com/synapse/core/training/SimpleTeacher.java:66-70 | one sample's step yields one weight and one bias correction per layer, all valid |
| Backprop.StepShape | SynapseCore/src/main/java/com/synapse/core/training/SimpleTeacher.java:66-70 | on a chained net a sample shaped for it never fails; its corrections have exactly the shapes of the weights and biases and its loss is ≥ 0 |
| Backprop.ZerosLike | SynapseCore/src/main/java/com/synapse/core/training/SimpleTeacher.java:61-62 | `zeros` of the accumulators: the same shapes, every entry 0 |
| Backprop.ZerosLikeSameShapes | SynapseCore/src/main/java/com/synapse/core/training/SimpleTeacher.java:61-62 | zeroing depends only on the shapes: two lists of the same shapes zero to the same matrices |
| Backprop.UpdateOne | SynapseCore/src/main/java/com/synapse/core/training/SimpleTeacher.java:186-187 | a single-matrix update succeeds exactly on equal shapes and moves each entry by the coefficient times the correction's entry |
| Backprop.Updated | SynapseCore/src/main/java/com/synapse/core/training/SimpleTeacher.java:142-147 | the update over the first n layers, weight before bias in layer order, yields n valid weights and n valid biases |
| Backprop.UpdatedFailurePersists | SynapseCore/src/main/java/com/synapse/core/training/SimpleTeacher.java:143-146 | the first failing layer's exception ends the whole update |
| Backprop.UpdatedSnoc | SynapseCore/src/main/java/com/synapse/core/training/SimpleTeacher.java:143-146 | layer n of an update after a successful prefix either fails it (weight first, then bias) or extends it by the two updated matrices |
| Backprop.UpdatedLayers | SynapseCore/src/main/java/com/synapse/core/training/SimpleTeacher.java:143-146 | between lists of the same shapes the update succeeds and layer k of the result is the single-matrix update of layer k |
| Backprop.UpdatedEntries | SynapseCore/src/main/java/com/synapse/core/training/SimpleTeacher.java:142-147 | an update by corrections of the same shapes keeps the shapes and changes every entry by the coefficient times the correction's entry |
| Backprop.UpdateAll | SynapseCore/src/main/java/com/synapse/core/training/SimpleTeacher.java:142-147 | matrices that are, layer by layer, the single-matrix updates of a by c have a's shapes and the updated entries |
| Backprop.BatchSteps | SynapseCore/src/main/java/com/synapse/core/training/SimpleTeacher.java:65-79 | every sample of a batch takes its step on the same weights and biases: one result per sample, each of the net's depth |
| Backprop.Accumulated | SynapseCore/src/main/java/com/synapse/core/training/SimpleTeacher.java:65-79 | adding n steps into the accumulators keeps n losses and one valid accumulator per layer |
| Backprop.AccumulatedNext | SynapseCore/src/main/java/com/synapse/core/training/SimpleTeacher.java:65-79 | step n − 1 continues the accumulation of the first n − 1: its failure, the failure of adding it, or its sum and its loss appended |
| Backprop.AccumulatedFailurePersists | SynapseCore/src/main/java/com/synapse/core/training/SimpleTeacher.java:65-79 | the first failing sample or addition ends the batch with its exception |
| Backprop.AccumulatedKeepsShapes | SynapseCore/src/main/java/com/synapse/core/training/SimpleTeacher.java:142-147 | accumulators that absorb the steps keep their shapes |
| Backprop.AccumulatedShape | SynapseCore/src/main/java/com/synapse/core/training/SimpleTeacher.java:142-147 | adding corrections shaped like the accumulators never fails and keeps their shapes |
| Backprop.AccumulatedLosses | SynapseCore/src/main/java/com/synapse/core/training/SimpleTeacher.java:68 | when accumulating succeeds, the kept losses are the steps' losses in order |
| Backprop.AccumulatedEntry | SynapseCore/src/main/java/com/synapse/core/training/SimpleTeacher.java:142-147 | adding corrections shaped like the accumulators leaves in entry j of layer k its start value plus the sum of the corrections' entries there |
| Backprop.AccumulatedSums | SynapseCore/src/main/java/com/synapse/core/training/SimpleTeacher.java:142-147 | the same for every entry of every layer at once |
| Backprop.ZeroLayers | SynapseCore/src/main/java/com/synapse/core/training/SimpleTeacher.java:61-62 | zero accumulators shaped like the weights and the biases |
| Backprop.BatchStepsShaped | SynapseCore/src/main/java/com/synapse/core/training/SimpleTeacher.java:65-79 | on a chained net every shaped sample of a batch yields corrections shaped like the net and a loss ≥ 0 |
| Backprop.ZeroStartSums | SynapseCore/src/main/java/com/synapse/core/training/SimpleTeacher.java:61-79 | from zeroed accumulators, every entry ends holding the sum of the corrections' entries there |
| Backprop.Batch | SynapseCore/src/main/java/com/synapse/core/training/SimpleTeacher.java:61-79 | the inner loop over a batch keeps one loss per sample and one valid accumulator per layer |
| Backprop.BatchAccumulators | SynapseCore/src/main/java/com/synapse/core/training/SimpleTeacher.java:61-79 | on a chained net and shaped samples the batch never fails and each accumulator entry is the sum over the batch of the samples' corrections there |
| Backprop.BatchLosses | SynapseCore/src/main/java/com/synapse/core/training/SimpleTeacher.java:65-79 | on a chained net and shaped samples the batch's losses are the samples' losses in order, each ≥ 0 |
| Backprop.UpdatedKeepsShapes | SynapseCore/src/main/java/com/synapse/core/training/SimpleTeacher.java:185-188 | a successful update keeps the shape of every matrix it updates |
| Backprop.UpdatedShapedLike | SynapseCore/src/main/java/com/synapse/core/training/SimpleTeacher.java:185-188 | updating every layer successfully leaves lists shaped like the old ones |
| Backprop.DescentKeepsChained | SynapseCore/src/main/java/com/synapse/core/training/SimpleTeacher.java:180-189 | descent by corrections shaped like a chained net never fails and leaves a chained net of the same shapes |
| Backprop.DescentEntries | SynapseCore/src/main/java/com/synapse/core/training/SimpleTeacher.java:180-189 | descent moves every entry by −rate times the accumulated correction there: W − rate·dW and B − rate·dB |
| Backprop.BatchUpdate | SynapseCore/src/main/java/com/synapse/core/training/SimpleTeacher.java:60-83 | one batch then the descent keeps the net's depth, valid matrices and one loss per sample |
| Backprop.BatchUpdateChained | SynapseCore/src/main/java/com/synapse/core/training/SimpleTeacher.java:60-83 | on a chained net and shaped samples the batch update never fails and the net stays chained with the same shapes |
| Backprop.ChunksValid | SynapseCore/src/main/java/com/synapse/core/training/SimpleTeacher.java:107-112 | cutting valid samples into batches gives batches of valid samples |
| Backprop.EpochRun | SynapseCore/src/main/java/com/synapse/core/training/SimpleTeacher.java:60-83 | the first n batches of an epoch, each on the net the previous one left, keep the net's depth and valid matrices |
| Backprop.EpochRunNext | SynapseCore/src/main/java/com/synapse/core/training/SimpleTeacher.java:60-83 | batch n − 1 after a successful prefix either ends the epoch with its exception or extends the run by its net and its recorded errors |
| Backprop.EpochRunFailurePersists | SynapseCore/src/main/java/com/synapse/core/training/SimpleTeacher.java:60-83 | the first failing batch ends the epoch with its exception |
| Backprop.LossCountNext | SynapseCore/src/main/java/com/synapse/core/training/teachers/MiddleTeacher.java:56-64 | each batch adds one error per sample (SimpleTeacher) or one per batch (MiddleTeacher) to the training errors |
| Backprop.EpochRunChained | SynapseCore/src/main/java/com/synapse/core/training/SimpleTeacher.java:60-83 | on a chained net and shaped batches an epoch never fails, stays chained, and records one error per sample or one per batch |
| Backprop.Trajectory | SynapseCore/src/main/java/com/synapse/core/training/SimpleTeacher.java:54-90 | k whole epochs over the same batches, epoch e at rate eta(e), keep the net's depth and valid matrices |
| Backprop.TrajectorySucc | SynapseCore/src/main/java/com/synapse/core/training/SimpleTeacher.java:54-90 | epoch k continues from the net the first k epochs left and appends its errors |
| Backprop.TrajectoryChained | SynapseCore/src/main/java/com/synapse/core/training/SimpleTeacher.java:54-90 | on a chained net and shaped batches k epochs never fail, the net stays chained, and k times the per-epoch error count is recorded |
| SimpleTeaching.Eta | SynapseCore/src/main/java/com/synapse/core/training/SimpleTeacher.java:183 | the rate applied at epoch e is the configured schedule's value at e |
| SimpleTeaching.BuiltFromValid | SynapseCore/src/main/java/com/synapse/core/training/SimpleTeacher.java:115 | a net drawn by `createNet` has one bias per weight matrix and only well-formed matrices |
| SimpleTeaching.UpdateSlot | SynapseCore/src/main/java/com/synapse/core/training/SimpleTeacher.java:144-145 | slot i of the weights, then of the biases, takes its update; a weight failure is reported before the bias is touched |
| SimpleTeaching.UpdateSlots | SynapseCore/src/main/java/com/synapse/core/training/SimpleTeacher.java:142-147 | the slot loop fails exactly when the layer-by-layer update does, with its exception, and otherwise leaves exactly the updated lists |
| SimpleTeaching.ForwardSlots | SynapseCore/src/main/java/com/synapse/core/training/SimpleTeacher.java:149-160 | the slots of `forwardPass` succeed exactly when the forward trace does, hold its outputs and fields, and fail with its exception |
| SimpleTeaching.BackwardLayer | SynapseCore/src/main/java/com/synapse/core/training/SimpleTeacher.java:172-174 | one layer of the backward loop extends the backward pass from the layer above by this layer's delta and weight correction, or its exception is that of the whole pass |
| SimpleTeaching.BackwardSlots | SynapseCore/src/main/java/com/synapse/core/training/SimpleTeacher.java:162-178 | the slots of `backwardPass` hold the backward pass's deltas and corrections, with b[i] = delta[i]; a net without layers fails at index −1 |
| SimpleTeaching.SimpleTeacher.constructor | SynapseCore/src/main/java/com/synapse/core/training/SimpleTeacher.java:40-44 | a teacher with its parameters and sample service and no net, tester or result yet |
| SimpleTeaching.SimpleTeacher.ForwardPass | SynapseCore/src/main/java/com/synapse/core/training/SimpleTeacher.java:149-160 | `forwardPass` fails exactly when the forward trace does; otherwise y and v hold the trace and the output is its last row |
| SimpleTeaching.SimpleTeacher.BackwardPass | SynapseCore/src/main/java/com/synapse/core/training/SimpleTeacher.java:162-178 | `backwardPass` returns the weight and bias corrections of the backward pass over the stored trace; a net without layers fails at index −1 |
| SimpleTeaching.SimpleTeacher.CalcTrainingError | SynapseCore/src/main/java/com/synapse/core/training/SimpleTeacher.java:136-140 | the sample loss is half the sum of squares of E, ≥ 0, and is appended to the training errors |
| SimpleTeaching.SimpleTeacher.AddCorrections | SynapseCore/src/main/java/com/synapse/core/training/SimpleTeacher.java:142-147 | the accumulators become their layer-by-layer sum with the corrections, or the first shape error is returned |
| SimpleTeaching.SimpleTeacher.ApplyCorrections | SynapseCore/src/main/java/com/synapse/core/training/SimpleTeacher.java:180-189 | without a rate the call fails with a null pointer and changes nothing; otherwise the net becomes W − rate·dw, B − rate·db at the current epoch's rate, or the first shape error is returned |
| SimpleTeaching.SimpleTeacher.TrainSample | SynapseCore/src/main/java/com/synapse/core/training/SimpleTeacher.java:66-70 | one pass of the sample loop takes the sample's step on the current net, keeps its loss and adds its corrections, or returns the step's exception |
| SimpleTeaching.SimpleTeacher.AccumulateStep | SynapseCore/src/main/java/com/synapse/core/training/SimpleTeacher.java:65-79 | sample i's step is added to the accumulators and its loss kept, continuing the accumulation of the first i samples |
| SimpleTeaching.SimpleTeacher.AccumulateBatch | SynapseCore/src/main/java/com/synapse/core/training/SimpleTeacher.java:65-79 | the sample loop leaves the accumulated sums of all steps and their losses, or stops at the first exception |
| SimpleTeaching.SimpleTeacher.SumBatch | SynapseCore/src/main/java/com/synapse/core/training/SimpleTeacher.java:61-79 | zeroing and the sample loop give exactly the batch's Batch: its failure, or its sums and losses |
| SimpleTeaching.SimpleTeacher.TrainBatch | SynapseCore/src/main/java/com/synapse/core/training/SimpleTeacher.java:60-82 | one pass of the batch loop is the batch update of the current net at the current rate: its failure, or its net and its losses appended |
| SimpleTeaching.SimpleTeacher.EpochStep | SynapseCore/src/main/java/com/synapse/core/training/SimpleTeacher.java:60-83 | batch i continues the epoch run of the first i batches or ends the epoch with its exception |
| SimpleTeaching.SimpleTeacher.EpochAdvance | SynapseCore/src/main/java/com/synapse/core/training/SimpleTeacher.java:60-83 | one pass of the batch loop moves the loop's state from batch i to batch i + 1 |
| SimpleTeaching.SimpleTeacher.EpochLoop | SynapseCore/src/main/java/com/synapse/core/training/SimpleTeacher.java:60-83 | the batch loop ends in the epoch run's state after every batch, or at its first exception |
| SimpleTeaching.SimpleTeacher.EpochTrain | SynapseCore/src/main/java/com/synapse/core/training/SimpleTeacher.java:60-83 | one epoch is the epoch run at the current rate: its failure, or its net and one loss per sample appended |
| SimpleTeaching.SimpleTeacher.AllocateScratch | SynapseCore/src/main/java/com/synapse/core/training/SimpleTeacher.java:121-133 | the slot arrays have the net's depth and are empty, and the accumulators are clones of the weights and biases |
| SimpleTeaching.SimpleTeacher.NewNet | SynapseCore/src/main/java/com/synapse/core/training/SimpleTeacher.java:115 | `createNet` fails exactly as CreateError says; on success the net is fresh, drawn from the parameters' sizes and made of valid matrices |
| SimpleTeaching.SimpleTeacher.ResetVariables | SynapseCore/src/main/java/com/synapse/core/training/SimpleTeacher.java:114-134 | `resetVariables` fails exactly as `createNet` does; otherwise a fresh net, tester and result, the configured rate, no training errors and the scratch arrays |
| SimpleTeaching.SimpleTeacher.ResetRest | SynapseCore/src/main/java/com/synapse/core/training/SimpleTeacher.java:116-133 | the rest of `resetVariables`: the given rate, a fresh tester and result, no training errors, the scratch arrays |
| SimpleTeaching.SimpleTeacher.TestableIsValid | SynapseCore/src/main/java/com/synapse/core/training/SimpleTeacher.java:191-193 | the net the tester sees is a valid net: valid layers and one activation per layer |
| SimpleTeaching.SimpleTeacher.Testing | SynapseCore/src/main/java/com/synapse/core/training/SimpleTeacher.java:191-193 | `testing` adds one testing error for the current net and epoch and leaves the tester's limits unchanged |
| SimpleTeaching.SimpleTeacher.LearnEpoch | SynapseCore/src/main/java/com/synapse/core/training/SimpleTeacher.java:57-87 | one pass of the do-while body trains one more epoch of the trajectory, counts it and tests it |
| SimpleTeaching.SimpleTeacher.EpochNext | SynapseCore/src/main/java/com/synapse/core/training/SimpleTeacher.java:57-86 | the batch loop then `epochCount++`: the net and errors are those of one more epoch of the trajectory |
| SimpleTeaching.SimpleTeacher.NewBatches | SynapseCore/src/main/java/com/synapse/core/training/SimpleTeacher.java:107-112 | `getNewBatches` cuts the training samples into batches of the batch size, in order |
| SimpleTeaching.SimpleTeacher.LearnStart | SynapseCore/src/main/java/com/synapse/core/training/SimpleTeacher.java:49-52 | the start of `learn`: the `createNet` exception, or a fresh drawn net, the configured rate, a test before training and the epoch count at 0 |
| SimpleTeaching.SimpleTeacher.ResetIsTrainedAt | SynapseCore/src/main/java/com/synapse/core/training/SimpleTeacher.java:49-52 | right after `resetVariables` with the count at 0 the teacher stands at the start of the trajectory |
| SimpleTeaching.SimpleTeacher.LearnTurn | SynapseCore/src/main/java/com/synapse/core/training/SimpleTeacher.java:54-90 | one turn of the do-while loop: new batches, one epoch and its test, the count one higher |
| SimpleTeaching.SimpleTeacher.LearnLoop | SynapseCore/src/main/java/com/synapse/core/training/SimpleTeacher.java:54-90 | the do-while loop ends exactly when a test has set a stop reason |
| SimpleTeaching.SimpleTeacher.FillResult | SynapseCore/src/main/java/com/synapse/core/training/SimpleTeacher.java:93-99 | the result takes the duration, the epoch count, the tester's stop reason, best net, testing errors and percents, and the training errors; a stopped teacher whose result is filled this way has learned |
| SimpleTeaching.SimpleTeacher.Learn | SynapseCore/src/main/java/com/synapse/core/training/SimpleTeacher.java:47-101 | `learn` fails exactly with the `createNet` exception; otherwise at least one epoch runs, at most the maximum unless only one ran, the net and training errors are those of that many epochs of descent from the drawn net, the stop reason is the last test's and the result is filled from the tester |
| SimpleTeaching.SimpleTeacher.LearnRun | SynapseCore/src/main/java/com/synapse/core/training/SimpleTeacher.java:54-99 | after the start, the loop and the result give a learned teacher |
| SimpleTeaching.SimpleTeacher.GetProgress | SynapseCore/src/main/java/com/synapse/core/training/SimpleTeacher.java:196-200 | before `learn` a null pointer; once stopped 1.0; otherwise the share of epochs run, epochCount / maxEpochsCount, which is in [0, 1] while the count is within the maximum |
| MiddleTeaching.Row | SynapseCore/src/main/java/com/synapse/core/training/teachers/MiddleTeacher.java:126-132 | `Matrix.create(columns)` is a 1×columns row |
| MiddleTeaching.ChunksRows | SynapseCore/src/main/java/com/synapse/core/training/teachers/MiddleTeacher.java:215-220 | cutting samples with one-row sources into batches keeps every source one row |
| MiddleTeaching.EpochRunSameNet | SynapseCore/src/main/java/com/synapse/core/training/teachers/MiddleTeacher.java:56-64 | keeping one error per batch instead of one per sample changes only the record: an epoch fails with the same exception, or reaches the same net, as SimpleTeacher's |
| MiddleTeaching.TrajectorySameNet | SynapseCore/src/main/java/com/synapse/core/training/teachers/MiddleTeacher.java:45-72 | over whole epochs a MiddleTeacher fails where a SimpleTeacher fails, with the same exception, and otherwise trains the same net |
| MiddleTeaching.EpochRunAdvance | SynapseCore/src/main/java/com/synapse/core/training/teachers/MiddleTeacher.java:51-67 | batch i after a successful run of the first i either ends the epoch with its exception or moves the net to its batch update and appends the batch error |
| MiddleTeaching.OutputRows | SynapseCore/src/main/java/com/synapse/core/training/teachers/MiddleTeacher.java:127-132 | one zero row per layer, as wide as that layer's weight columns |
| MiddleTeaching.InitialSlotsOf | SynapseCore/src/main/java/com/synapse/core/training/teachers/MiddleTeacher.java:119-135 | the context's slots are y[0] as wide as the first weight rows, then rows as wide as each layer's columns |
| MiddleTeaching.ResetError | SynapseCore/src/main/java/com/synapse/core/training/teachers/MiddleTeacher.java:85-107 | `resetVariables` fails exactly when `createNet` does, or, for a net without layers, at the context's read of `weights[0]` |
| MiddleTeaching.CalcContext.constructor | SynapseCore/src/main/java/com/synapse/core/training/teachers/MiddleTeacher.java:119-135 | the context's slot arrays have the layer count, each slot a zero matrix of the shape the passes write into it |
| MiddleTeaching.CalcContext.Pass | SynapseCore/src/main/java/com/synapse/core/training/teachers/MiddleTeacher.java:137-199 | `pass` fails with a rows mismatch for a source of more than one row; otherwise it fails exactly when the sample's step does, with its exception, and leaves the step's corrections in w and b and its loss in `errorValue` |
| MiddleTeaching.MiddleTeacher.constructor | SynapseCore/src/main/java/com/synapse/core/training/teachers/MiddleTeacher.java:30-35 | a teacher with its parameters and no net, tester, context or result yet |
| MiddleTeaching.MiddleTeacher.AddCorrections | SynapseCore/src/main/java/com/synapse/core/training/teachers/MiddleTeacher.java:223-228 | the accumulators become their layer-by-layer sum with the context's corrections, or the first shape error is returned |
| MiddleTeaching.MiddleTeacher.ApplyCorrections | SynapseCore/src/main/java/com/synapse/core/training/teachers/MiddleTeacher.java:231-242 | without a rate a null pointer and nothing changes; otherwise the net becomes W − rate·correctionsW, B − rate·correctionsB at the current epoch's rate, or the first shape error is returned |
| MiddleTeaching.MiddleTeacher.AccumulateStep | SynapseCore/src/main/java/com/synapse/core/training/teachers/MiddleTeacher.java:57-62 | sample i's pass adds its loss to the batch error and its corrections to the accumulators, continuing the accumulation of the first i samples |
| MiddleTeaching.MiddleTeacher.AccumulateBatch | SynapseCore/src/main/java/com/synapse/core/training/teachers/MiddleTeacher.java:56-62 | the sample loop leaves the accumulated corrections and the summed losses of the batch, or stops at the first exception |
| MiddleTeaching.MiddleTeacher.SumBatch | SynapseCore/src/main/java/com/synapse/core/training/teachers/MiddleTeacher.java:52-62 | zeroing and the sample loop give exactly the batch's Batch: its failure, or its sums |
| MiddleTeaching.MiddleTeacher.TrainBatch | SynapseCore/src/main/java/com/synapse/core/training/teachers/MiddleTeacher.java:52-66 | one pass of the batch loop is the batch update at the current rate, with the batch's summed loss divided by the batch size kept as its one error |
| MiddleTeaching.MiddleTeacher.EpochStep | SynapseCore/src/main/java/com/synapse/core/training/teachers/MiddleTeacher.java:51-67 | batch i continues the epoch run of the first i batches or ends the epoch with its exception |
| MiddleTeaching.MiddleTeacher.EpochAdvance | SynapseCore/src/main/java/com/synapse/core/training/teachers/MiddleTeacher.java:51-67 | one pass of the batch loop moves the loop's state from batch i to batch i + 1 |
| MiddleTeaching.MiddleTeacher.EpochStateDone | SynapseCore/src/main/java/com/synapse/core/training/teachers/MiddleTeacher.java:51-67 | once the batch loop has left, its exception is the epoch's, and without one every batch has run |
| MiddleTeaching.MiddleTeacher.EpochLoop | SynapseCore/src/main/java/com/synapse/core/training/teachers/MiddleTeacher.java:51-67 | the batch loop ends in the epoch run's state after every batch, or at its first exception |
| MiddleTeaching.MiddleTeacher.EpochTrain | SynapseCore/src/main/java/com/synapse/core/training/teachers/MiddleTeacher.java:51-67 | one epoch is the epoch run at the current rate: its failure, or its net and one error per batch appended |
| MiddleTeaching.MiddleTeacher.NewNet | SynapseCore/src/main/java/com/synapse/core/training/teachers/MiddleTeacher.java:86 | `createNet` fails exactly as CreateError says; on success the net is fresh, drawn from the parameters' sizes and made of valid matrices |
| MiddleTeaching.MiddleTeacher.ResetRest | SynapseCore/src/main/java/com/synapse/core/training/teachers/MiddleTeacher.java:87-93 | the configured rate, no training errors, a fresh result and a fresh tester for this teacher |
| MiddleTeaching.MiddleTeacher.AllocateScratch | SynapseCore/src/main/java/com/synapse/core/training/teachers/MiddleTeacher.java:95-106 | a fresh context for the net's layers and zero accumulators shaped like the weights and biases |
| MiddleTeaching.MiddleTeacher.ResetVariables | SynapseCore/src/main/java/com/synapse/core/training/teachers/MiddleTeacher.java:85-107 | `resetVariables` fails exactly as ResetError says; otherwise a fresh drawn net, tester, result and context, the configured rate and no training errors |
| MiddleTeaching.MiddleTeacher.ResetScratch | SynapseCore/src/main/java/com/synapse/core/training/teachers/MiddleTeacher.java:87-106 | after the net: the rate, tester and result, then the context, which fails at index 0 for a net without layers |
| MiddleTeaching.MiddleTeacher.TestableIsValid | SynapseCore/src/main/java/com/synapse/core/training/teachers/MiddleTeacher.java:244-246 | the net the tester sees is a valid net: valid layers and one activation per layer |
| MiddleTeaching.MiddleTeacher.Testing | SynapseCore/src/main/java/com/synapse/core/training/teachers/MiddleTeacher.java:244-246 | `testing` adds one testing error for the current net and epoch and leaves the tester's limits unchanged |
| MiddleTeaching.MiddleTeacher.EpochNext | SynapseCore/src/main/java/com/synapse/core/training/teachers/MiddleTeacher.java:48-69 | the batch loop then `epochCount++`: the net and errors are those of one more epoch of the trajectory |
| MiddleTeaching.MiddleTeacher.CountEpoch | SynapseCore/src/main/java/com/synapse/core/training/teachers/MiddleTeacher.java:69 | `epochCount++` once the net and errors are one epoch further keeps the teacher on its trajectory |
| MiddleTeaching.MiddleTeacher.LearnEpoch | SynapseCore/src/main/java/com/synapse/core/training/teachers/MiddleTeacher.java:48-70 | one pass of the do-while body trains one more epoch of the trajectory, counts it and tests it |
| MiddleTeaching.MiddleTeacher.NewBatches | SynapseCore/src/main/java/com/synapse/core/training/teachers/MiddleTeacher.java:215-220 | `getNewBatches` cuts the training samples into batches of the batch size, in order |
| MiddleTeaching.MiddleTeacher.ResetIsTrainedAt | SynapseCore/src/main/java/com/synapse/core/training/teachers/MiddleTeacher.java:40-43 | right after `resetVariables` with the count at 0 the teacher stands at the start of the trajectory |
| MiddleTeaching.MiddleTeacher.LearnStart | SynapseCore/src/main/java/com/synapse/core/training/teachers/MiddleTeacher.java:40-43 | the start of `learn`: the reset exception, or a fresh drawn net, the configured rate, a test before training and the epoch count at 0 |
| MiddleTeaching.MiddleTeacher.LearnReset | SynapseCore/src/main/java/com/synapse/core/training/teachers/MiddleTeacher.java:40-41 | `resetVariables` then the test of the drawn net: the reset exception, or one testing error recorded |
| MiddleTeaching.MiddleTeacher.LearnTurn | SynapseCore/src/main/java/com/synapse/core/training/teachers/MiddleTeacher.java:45-72 | one turn of the do-while loop: new batches, one epoch and its test, the count one higher |
| MiddleTeaching.MiddleTeacher.LearnLoop | SynapseCore/src/main/java/com/synapse/core/training/teachers/MiddleTeacher.java:45-72 | the do-while loop ends exactly when a test has set a stop reason |
| MiddleTeaching.MiddleTeacher.FillResult | SynapseCore/src/main/java/com/synapse/core/training/teachers/MiddleTeacher.java:75-81 | the result takes the duration, the epoch count, the tester's stop reason, best net, testing errors and percents, and the training errors; a stopped teacher whose result is filled this way has learned |
| MiddleTeaching.MiddleTeacher.Learn | SynapseCore/src/main/java/com/synapse/core/training/teachers/MiddleTeacher.java:38-83 | `learn` fails exactly with the reset exception; otherwise at least one epoch runs, the net and the per-batch training errors are those of that many epochs of descent from the drawn net, the stop reason is the last test's and the result is filled from the tester |
| MiddleTeaching.MiddleTeacher.LearnRun | SynapseCore/src/main/java/com/synapse/core/training/teachers/MiddleTeacher.java:45-81 | after the start, the loop and the result give a learned teacher |
| MiddleTeaching.MiddleTeacher.GetProgress | SynapseCore/src/main/java/com/synapse/core/training/teachers/MiddleTeacher.java:249-253 | before `learn` a null pointer; once stopped 1.0; otherwise epochCount / maxEpochsCount, which is in [0, 1] while the count is within the maximum |
| Testers.FirstMax | SynapseCore/src/main/java/com/synapse/core/training/Tester.java:103-110 | the index scan returns the first index of a largest entry among the first n |
| Testers.ClassIndexOf | SynapseCore/src/main/java/com/synapse/core/training/testers/Tester.java:87-93 | the current tester reads a class index only from a one-row matrix (any other fails the `getItem` check) and returns the first index of its largest entry; the older tester returns the first largest index of the whole buffer |
| Testers.ClassIndex | SynapseCore/src/main/java/com/synapse/core/training/testers/Tester.java:87-93 | the loop of `getClassIndex` over `getItem(0, i)` computes exactly ClassIndexOf for one-row reading |
| Testers.ClassIndexOfArray | SynapseCore/src/main/java/com/synapse/core/training/Tester.java:103-110 | the older `getClassIndex` gives 0 for an empty buffer and otherwise the first index of a largest entry |
| Testers.ClassIndexBy | SynapseCore/src/main/java/com/synapse/core/training/Tester.java:103-110 | the class index by either tester's rule is ClassIndexOf for that rule |
| Testers.SampleOutcome | SynapseCore/src/main/java/com/synapse/core/training/testers/SerialTester.java:25-32 | one sample's test outcome, when the pass and both class reads succeed, has a loss ≥ 0 |
| Testers.Score | SynapseCore/src/main/java/com/synapse/core/training/testers/SerialTester.java:26-32 | scoring an output against a target gives half the sum of squares of T − O, which is ≥ 0, and whether their class indices agree |
| Testers.SampleOutcomes | SynapseCore/src/main/java/com/synapse/core/training/testers/SerialTester.java:24-41 | one outcome per test sample |
| Testers.SampleOutcomesAt | SynapseCore/src/main/java/com/synapse/core/training/testers/SerialTester.java:24-41 | outcome k is the outcome of sample k on the net |
| Testers.CollectMeaning | SynapseCore/src/main/java/com/synapse/core/training/testers/SerialTester.java:24-41 | collecting outcomes succeeds with exactly the outcomes in order, or fails with the exception of some sample among them |
| Testers.CollectFailurePersists | SynapseCore/src/main/java/com/synapse/core/training/testers/SerialTester.java:24-41 | the first failing sample's exception ends the whole test |
| Testers.Accumulate | SynapseCore/src/main/java/com/synapse/core/training/testers/SerialTester.java:28-32 | one more outcome adds its loss to the loss sum and one to the hits exactly when it is a hit |
| Testers.LossSumNonNegative | SynapseCore/src/main/java/com/synapse/core/training/testers/SerialTester.java:28 | the accumulated error is never negative |
| Testers.HitsAtMostCount | SynapseCore/src/main/java/com/synapse/core/training/testers/SerialTester.java:32-33 | there are never more hits than samples |
| Testers.EvaluateBounds | SynapseCore/src/main/java/com/synapse/core/training/testers/SerialTester.java:19-46 | when the test of a shaped net on non-empty valid samples succeeds, its error is ≥ 0 and its percent in [0, 100] |
| Testers.SummaryBounds | SynapseCore/src/main/java/com/synapse/core/training/testers/SerialTester.java:43-45 | averaging non-empty outcomes gives an error ≥ 0 and a percent in [0, 100] |
| Testers.AllHits | SynapseCore/src/main/java/com/synapse/core/training/testers/SerialTester.java:43-45 | when every sample is a hit the percent is exactly 100 |
| Testers.NetShaped | SynapseCore/src/main/java/com/synapse/core/training/testers/SerialTester.java:25 | a valid net is shaped for the test pass |
| Testers.TestSample | SynapseCore/src/main/java/com/synapse/core/training/testers/SerialTester.java:25-32 | one pass of the test loop computes exactly the sample's outcome or its exception |
| Testers.ScoreOutput | SynapseCore/src/main/java/com/synapse/core/training/testers/SerialTester.java:26-32 | the scoring code computes exactly Score |
| Testers.TallySamples | SynapseCore/src/main/java/com/synapse/core/training/testers/SerialTester.java:24-41 | the test loop's running sums are the tally of the collected outcomes, or the first exception |
| Testers.PerformTest | SynapseCore/src/main/java/com/synapse/core/training/testers/SerialTester.java:19-46 | `performTest` returns exactly the evaluation of the net on the samples: the mean loss and the hit percentage, or the first exception |
| Testers.ParallelErrorIsHitRate | SynapseCore/src/main/java/com/synapse/core/training/testers/ParallelTester.java:36-46 | as written, the parallel tester adds each task's percent into the error, so its error sum is the hit count; one right sample with loss 0.5 reports error 1.0 where the serial tester reports 0.5 |
| Testers.ParallelMatchesSerial | SynapseCore/src/main/java/com/synapse/core/training/testers/ParallelTester.java:26-67 | with each task's error added into the error, the parallel tester's result equals the serial tester's |
| Testers.ParallelSumIsLossSum | SynapseCore/src/main/java/com/synapse/core/training/testers/ParallelTester.java:36-44 | the corrected parallel error sum is the loss sum |
| Testers.SpeedOfConstant | SynapseCore/src/main/java/com/synapse/core/training/testers/Tester.java:107-158 | on a constant error history the current trend is 0 |
| Testers.SpeedOfLinear | SynapseCore/src/main/java/com/synapse/core/training/testers/Tester.java:107-158 | on a straight-line history with step d the current trend is exactly d, for every history length |
| Testers.ClampedValueIsClamped | SynapseCore/src/main/java/com/synapse/core/training/Tester.java:134-136 | `getValue` at a negative index reads the oldest entry, otherwise the entry itself |
| Testers.OldSpeedExpanded | SynapseCore/src/main/java/com/synapse/core/training/Tester.java:124-132 | the older trend is the seven-point stencil over the newest entries, the history clamped at its oldest |
| Testers.OldSpeedOfConstant | SynapseCore/src/main/java/com/synapse/core/training/Tester.java:124-132 | on a constant history the older trend is 0 |
| Testers.OldSpeedOfLinear | SynapseCore/src/main/java/com/synapse/core/training/Tester.java:124-132 | on a straight-line history of at least seven entries with step d the older trend is exactly d |
| Testers.OldSpeed | SynapseCore/src/main/java/com/synapse/core/training/Tester.java:124-132 | the stencil loop computes exactly the older trend |
| Testers.NextReason | SynapseCore/src/main/java/com/synapse/core/training/testers/Tester.java:76-85 | the stop reason after a test: MIN_ERROR below the error limit, else MAX_EPOCH at the maximum epoch, else OVERFITTING above the speed limit, else unchanged |
| Testers.StopIsFinal | SynapseCore/src/main/java/com/synapse/core/training/testers/Tester.java:76-85 | a stop reason once set stays set, and none is set exactly when no stop condition holds and none was set |
| Testers.MinOfIsMinimum | SynapseCore/src/main/java/com/synapse/core/training/testers/Tester.java:67-74 | the minimum error is at most the start and every entry, and is the start or one of the entries |
| Testers.SerialTester.constructor | SynapseCore/src/main/java/com/synapse/core/training/testers/Tester.java:33-39 | a new tester has the limits of the parameters, no history, no best net, no stop reason and the minimum at Double.MAX_VALUE |
| Testers.SerialTester.SetTrainingParameters | SynapseCore/src/main/java/com/synapse/core/training/testers/Tester.java:33-39 | the limits are the parameters' and the history and minimum are reset; name, best net and stop reason are kept |
| Testers.SerialTester.SaveTestValues | SynapseCore/src/main/java/com/synapse/core/training/testers/Tester.java:67-74 | the error and percent are appended to the history; a new strict minimum makes the net the best net |
| Testers.SerialTester.DetermineResult | SynapseCore/src/main/java/com/synapse/core/training/testers/Tester.java:76-85 | the stop reason becomes NextReason at limit 1.0; nothing else changes |
| Testers.SerialTester.IsContinue | SynapseCore/src/main/java/com/synapse/core/training/testers/Tester.java:96-98 | the tester goes on exactly while no stop reason is set |
| Testers.SerialTester.Test | SynapseCore/src/main/java/com/synapse/core/training/testers/Tester.java:41-57 | `test` returns the evaluation of the net on one-row reading; on success it records the error and percent, updates the best net, and sets the stop reason from the error, epoch and current trend; on failure nothing changes |
| Testers.OldTester.constructor | SynapseCore/src/main/java/com/synapse/core/training/Tester.java:33-40 | a new older tester has the limits of the parameters, no history, no best net, no stop reason and the minimum at Double.MAX_VALUE |
| Testers.OldTester.IsContinue | SynapseCore/src/main/java/com/synapse/core/training/Tester.java:113-115 | the older tester goes on exactly while no stop reason is set |
| Testers.OldTester.SaveTestValues | SynapseCore/src/main/java/com/synapse/core/training/Tester.java:82-89 | the error and percent are appended; a new strict minimum makes the net the best net |
| Testers.OldTester.DetermineResult | SynapseCore/src/main/java/com/synapse/core/training/Tester.java:91-101 | the stop reason becomes NextReason at limit 0.2; nothing else changes |
| Testers.OldTester.Test | SynapseCore/src/main/java/com/synapse/core/training/Tester.java:42-80 | `test` evaluates the net by whole-buffer class reading; on success it records the results, updates the best net and sets the stop reason from the older trend; on failure nothing changes |
| Training.ReadParametersImage | SynapseCore/src/main/java/com/synapse/core/training/TrainingParameters.java:45-51 | reading the parameters fails on fewer than four tokens |
| Training.ParametersRoundTrip | SynapseCore/src/main/java/com/synapse/core/training/TrainingParameters.java:37-51 | the parameters' `readExternal` after `writeExternal` gives back the epoch limit, batch size, error limit and rate (or null) |
| Training.ParametersReport | SynapseCore/src/main/java/com/synapse/core/training/TrainingParameters.java:54-62 | `getReport`: five lines, the header, then maxEpochsCount, batchSize, errorLimit and rate (null when unset) |
| Training.TrainingParameters.constructor | SynapseCore/src/main/java/com/synapse/core/training/TrainingParameters.java:16-21 | new parameters have no rate and zero limits |
| Training.TrainingParameters.Image | SynapseCore/src/main/java/com/synapse/core/training/TrainingParameters.java:18-21 | the value the parameters stand for: the same limits and the schedule of the rate |
| Training.TrainingParameters.Clone | SynapseCore/src/main/java/com/synapse/core/training/TrainingParameters.java:24-34 | the clone is a new object with the same rate object and the same limits |
| Training.TrainingParameters.WriteExternal | SynapseCore/src/main/java/com/synapse/core/training/TrainingParameters.java:37-42 | the output is the four fields in order, and reading it back gives the same parameters with nothing left over |
| Training.TrainingParameters.ReadExternal | SynapseCore/src/main/java/com/synapse/core/training/TrainingParameters.java:45-51 | reading succeeds exactly when the tokens hold two ints, a double and a rate object or null; the parameters then hold those values and the rate is a fresh object |
| Training.ReasonToken | SynapseCore/src/main/java/com/synapse/core/training/TrainingResult.java:85 | a stop reason is written as null exactly when there is none |
| Training.DecodeReason | SynapseCore/src/main/java/com/synapse/core/training/TrainingResult.java:108 | null reads back as no stop reason; an object of another class is a ClassCastException |
| Training.ReasonExact | SynapseCore/src/main/java/com/synapse/core/training/TrainingResult.java:85-108 | a token reads back as a stop reason exactly when it is the token that reason is written as |
| Training.NetCheck | SynapseCore/src/main/java/com/synapse/core/training/TrainingResult.java:107 | the best-net slot accepts null or a net object whose fields read back as a net; another class is a ClassCastException |
| Training.ReadBestNet | SynapseCore/src/main/java/com/synapse/core/training/TrainingResult.java:107 | the best net read back is null exactly for a null token, and otherwise a fresh net of the matrices its fields hold |
| Training.ReadList | SynapseCore/src/main/java/com/synapse/core/training/TrainingResult.java:110-123 | reading a list from an exhausted stream fails |
| Training.ListRoundTrip | SynapseCore/src/main/java/com/synapse/core/training/TrainingResult.java:87-123 | a list written as its size and its doubles reads back as the same list |
| Training.ReadFields | SynapseCore/src/main/java/com/synapse/core/training/TrainingResult.java:104-124 | the field reads compute exactly ReadResult, and a successful read has an acceptable best-net slot |
| Training.ResultRoundTrip | SynapseCore/src/main/java/com/synapse/core/training/TrainingResult.java:81-124 | the result's `readExternal` after `writeExternal` gives back every field, with the tokens after them untouched |
| Training.WriteList | SynapseCore/src/main/java/com/synapse/core/training/TrainingResult.java:87-100 | the list loop writes the size and then the doubles in order |
| Training.ReadListLoop | SynapseCore/src/main/java/com/synapse/core/training/TrainingResult.java:110-123 | the list loop reads exactly what ReadList describes |
| Training.TrainingResult.constructor | SynapseCore/src/main/java/com/synapse/core/training/TrainingResult.java:18-39 | a new result has empty lists, no epochs, no stop reason, no duration and no best net |
| Training.TrainingResult.NetTokenChecks | SynapseCore/src/main/java/com/synapse/core/training/TrainingResult.java:84 | the best net is written in a form its reader accepts |
| Training.TrainingResult.WriteNet | SynapseCore/src/main/java/com/synapse/core/training/TrainingResult.java:84 | the best net is written as its object token, which its reader accepts |
| Training.TrainingResult.WriteExternal | SynapseCore/src/main/java/com/synapse/core/training/TrainingResult.java:81-101 | writing fails with a null pointer exactly when there is no duration; otherwise reading the output back gives the same fields with nothing left over |
| Training.TrainingResult.ReadExternal | SynapseCore/src/main/java/com/synapse/core/training/TrainingResult.java:104-124 | reading succeeds exactly when ReadResult does; duration, epochs, stop reason and best net are replaced and the three lists are appended to the ones held |
| Training.TrainingResult.GetAverageTrainingErrors | SynapseCore/src/main/java/com/synapse/core/training/TrainingResult.java:126-137 | one value per training error: the sum of the 51 clamped neighbours at offsets −25..25, divided by 50 |
| Training.GetValue | SynapseCore/src/main/java/com/synapse/core/training/TrainingResult.java:139-143 | `getValue` reads the entry at the index, the first below 0 and the last past the end, always an entry of the list |
| Training.CopiesIsProduct | SynapseCore/src/main/java/com/synapse/core/training/TrainingResult.java:131-134 | adding a value n times gives n times the value |
| Training.WindowSumBounds | SynapseCore/src/main/java/com/synapse/core/training/TrainingResult.java:131-133 | a window of clamped entries between lo and hi sums to between count·lo and count·hi |
| Training.AverageOfConstant | SynapseCore/src/main/java/com/synapse/core/training/TrainingResult.java:126-137 | as written, a constant history c averages to 51c/50, which differs from c when c ≠ 0 |
| Training.AverageBounds | SynapseCore/src/main/java/com/synapse/core/training/TrainingResult.java:126-137 | as written, the average of a history within [lo, hi] lies within [51·lo/50, 51·hi/50] |
| Training.AverageIntendedOfConstant | SynapseCore/src/main/java/com/synapse/core/training/TrainingResult.java:126-137 | dividing by the 51 terms summed, a constant history averages to itself |
| Training.AverageIntendedBounds | SynapseCore/src/main/java/com/synapse/core/training/TrainingResult.java:126-137 | corrected, the average of a history within [lo, hi] lies within [lo, hi] |
| Training.SplitSeconds | SynapseCore/src/main/java/com/synapse/core/training/TrainingResult.java:72-78 | hours, minutes and seconds recombine to the seconds, the minutes below 60 |
| Training.TimeParts | SynapseCore/src/main/java/com/synapse/core/training/TrainingResult.java:72-78 | the fields recombine to the seconds; for a non-negative count minutes and seconds are in [0, 60), and truncating division makes them non-positive for a negative count |
| Training.Pad2 | SynapseCore/src/main/java/com/synapse/core/training/TrainingResult.java:73 | `%02d` pads a single digit with one zero and leaves other numbers as they are |
| Training.StringTimeFields | SynapseCore/src/main/java/com/synapse/core/training/TrainingResult.java:72-78 | for a non-negative duration the minutes and seconds fields are two digits, the hours at least two, and the fields determine the seconds |
| Samples.NewSample | SynapseCore/src/main/java/com/synapse/core/samples/Sample.java:28-46 | a sample is built exactly from a one-row source and a one-row target, the source checked first, each refusal an IllegalArgumentException; its sizes are the column counts |
| Samples.FromMatrices | SynapseCore/src/main/java/com/synapse/core/samples/Sample.java:24-26 | the array constructor reads index 0 then index 1, failing on a shorter array, and is otherwise the two-matrix constructor |
| Samples.ReadSample | SynapseCore/src/main/java/com/synapse/core/samples/Sample.java:55-61 | a slot of another class is a ClassCastException; a null source that is followed by a readable target is a NullPointerException |
| Samples.SampleRoundTrip | SynapseCore/src/main/java/com/synapse/core/samples/Sample.java:49-61 | a sample's `readExternal` after `writeExternal` gives back the same source and target |
| Samples.NullSourceAfterTarget | SynapseCore/src/main/java/com/synapse/core/samples/Sample.java:56-59 | a null source is reported only after the target is read, so a target of the wrong class is reported first |
| Samples.SourceIterator.constructor | SynapseCore/src/main/java/com/synapse/core/samples/SampleBatches.java:17 | the shared iterator starts at position 0 of the samples |
| Samples.SourceIterator.HasNext | SynapseCore/src/main/java/com/synapse/core/samples/SampleBatches.java:21 | the shared iterator has a next sample exactly while its position is inside the list |
| Samples.SourceIterator.Next | SynapseCore/src/main/java/com/synapse/core/samples/SampleBatches.java:38 | `next` returns the sample at the position and advances by one, or throws NoSuchElement at the end without moving |
| Samples.BatchIterator.constructor | SynapseCore/src/main/java/com/synapse/core/samples/SampleBatches.java:26-28 | a batch's iterator shares the source iterator and starts with a count of 0 |
| Samples.BatchIterator.HasNext | SynapseCore/src/main/java/com/synapse/core/samples/SampleBatches.java:31-33 | a batch goes on exactly while its count is below the batch size and the shared iterator has a sample |
| Samples.BatchIterator.Next | SynapseCore/src/main/java/com/synapse/core/samples/SampleBatches.java:36-39 | the batch's `next` counts one more and takes the shared iterator's next sample, or NoSuchElement at the end |
| Samples.BatchesIterator.constructor | SynapseCore/src/main/java/com/synapse/core/samples/SampleBatches.java:17-18 | the outer iterator holds the shared iterator and the batch size |
| Samples.BatchesIterator.HasNext | SynapseCore/src/main/java/com/synapse/core/samples/SampleBatches.java:20-22 | there is another batch exactly while the shared iterator has a sample |
| Samples.BatchesIterator.Next | SynapseCore/src/main/java/com/synapse/core/samples/SampleBatches.java:25-41 | each batch is a fresh inner iterator over the same shared iterator, with a count of 0 |
| Samples.SampleBatches.constructor | SynapseCore/src/main/java/com/synapse/core/samples/SampleBatches.java:10-13 | the batches hold the batch size and the samples |
| Samples.SampleBatches.Iterator | SynapseCore/src/main/java/com/synapse/core/samples/SampleBatches.java:16-18 | `iterator()` starts a fresh shared iterator at position 0 of the samples |
| Samples.BatchEnd | SynapseCore/src/main/java/com/synapse/core/samples/SampleBatches.java:31-39 | reading a batch to its end moves the position by at most the batch size, by at least one while samples remain, and not at all for a batch size ≤ 0 |
| Samples.ReadBatch | SynapseCore/src/main/java/com/synapse/core/samples/SampleBatches.java:25-41 | a batch read to its end yields the consecutive samples from the position to BatchEnd, and nothing for a batch size ≤ 0 |
| Samples.PositionAfter | SynapseCore/src/main/java/com/synapse/core/samples/SampleBatches.java:16-41 | reading n batches never moves the position past the end |
| Samples.EmptyBatchesNeverEnd | SynapseCore/src/main/java/com/synapse/core/samples/SampleBatches.java:20-33 | with a batch size ≤ 0 batches never advance the shared iterator, so the outer iterator reports another batch forever |
| Samples.BatchesEnd | SynapseCore/src/main/java/com/synapse/core/samples/SampleBatches.java:20-39 | with a positive batch size, n batches of size b cover any n·b remaining samples and the iteration ends |
| Samples.ChunksFlatten | SynapseCore/src/main/java/com/synapse/core/samples/SampleBatches.java:16-43 | the batches, concatenated in order, are exactly the samples |
| Samples.ChunksCount | SynapseCore/src/main/java/com/synapse/core/samples/SampleBatches.java:16-43 | there are ⌈n / b⌉ batches |
| Samples.ChunksSizes | SynapseCore/src/main/java/com/synapse/core/samples/SampleBatches.java:16-43 | every batch is non-empty and at most b long, and every batch but the last is exactly b long |
| Samples.ReadAll | SynapseCore/src/main/java/com/synapse/core/samples/SampleBatches.java:16-43 | iterating all batches, each read to its end, yields exactly the chunks of the samples, which concatenate back to the samples |
| Samples.SampleList.constructor | SynapseCore/src/main/java/com/synapse/core/samples/ListSampleService.java:35-43 | a list holding the given samples |
| Samples.Round | SynapseCore/src/main/java/com/synapse/core/samples/ListSampleService.java:40 | `Math.round` gives the integer within half of x, halves rounded up |
| Samples.Ceil | SynapseCore/src/main/java/com/synapse/core/samples/ListSampleService.java:31 | `Math.ceil` gives the least integer ≥ x |
| Samples.StepBounds | SynapseCore/src/main/java/com/synapse/core/samples/ListSampleService.java:36-40 | with count ≤ n the step n / count is ≥ 1, and i·step stays within [i, n − step] |
| Samples.TakeIndexInRange | SynapseCore/src/main/java/com/synapse/core/samples/ListSampleService.java:40 | every index `take` removes is inside the list that remains at that point |
| Samples.Take | SynapseCore/src/main/java/com/synapse/core/samples/ListSampleService.java:35-43 | `take` refuses a negative count; for a count up to the list size it moves exactly count samples into a fresh list, and the two lists together hold the original samples |
| Samples.ShareCountInRange | SynapseCore/src/main/java/com/synapse/core/samples/ListSampleService.java:31 | for a ratio in [0, 1] the training count ⌈n·ratio⌉ is between 0 and n |
| Samples.ListSampleService.Empty | SynapseCore/src/main/java/com/synapse/core/samples/ListSampleService.java:14-15 | a new service has two distinct empty lists |
| Samples.ListSampleService.Copying | SynapseCore/src/main/java/com/synapse/core/samples/ListSampleService.java:21-24 | the copying constructor fills two fresh lists with the training and testing samples in order |
| Samples.ListSampleService.Distribute | SynapseCore/src/main/java/com/synapse/core/samples/ListSampleService.java:30-33 | for a ratio in [0, 1], ⌈n·ratio⌉ samples move into a fresh training list and the caller's list, holding the rest, becomes the testing list; together they hold the original samples |
| Samples.ListSampleService.TrainingSampling | SynapseCore/src/main/java/com/synapse/core/samples/ListSampleService.java:46-48 | the training sampling is the training list itself |
| Samples.ListSampleService.TestingSampling | SynapseCore/src/main/java/com/synapse/core/samples/ListSampleService.java:51-53 | the testing sampling is the testing list itself |
| Samples.ServiceReport | SynapseCore/src/main/java/com/synapse/core/samples/ListSampleService.java:57-64 | the service report has three lines under the "FileSampleService:" header |
| Samples.ShareIsFraction | SynapseCore/src/main/java/com/synapse/core/samples/ListSampleService.java:58-62 | as written the two printed shares sum to 1, so 8 of 10 samples print as 0.8 under a percent sign |
| Samples.PercentsSumTo100 | SynapseCore/src/main/java/com/synapse/core/samples/ListSampleService.java:58-62 | corrected, the printed shares sum to 100 and 8 of 10 samples print as 80 |
| Generators.RangeCount | SynapseCore/src/main/java/com/synapse/core/samples/ArraysGenerator.java:8 | the point count of `range` is a 32-bit int; with a zero step it is 0 exactly when the bounds agree (NaN rounds to 0) and −1 otherwise (infinity rounds to the largest long, which narrows to −1) |
| Generators.RangeCountNearest | SynapseCore/src/main/java/com/synapse/core/samples/ArraysGenerator.java:4-10 | for a positive step and a span of fewer than 2^31 − 1 steps the count is the nearest whole number of steps, so the points stop within half a step of end |
| Generators.GetData | SynapseCore/src/main/java/com/synapse/core/samples/ArraysGenerator.java:20-27 | `getData` fails with NegativeArraySize exactly for a negative count and otherwise fills a fresh array of count entries with start + i·step |
| Generators.Range | SynapseCore/src/main/java/com/synapse/core/samples/ArraysGenerator.java:4-10 | `range` refuses end < start; a negative count is NegativeArraySize; otherwise RangeCount(start, end, step) points start + i·step |
| Generators.Space | SynapseCore/src/main/java/com/synapse/core/samples/ArraysGenerator.java:12-18 | `space` refuses end < start, then a negative count; otherwise count points start + i·(end − start)/count |
| Generators.SpacePoints | SynapseCore/src/main/java/com/synapse/core/samples/ArraysGenerator.java:12-27 | the space points start at start, never fall below it, stay below end when start < end, and the point at index count would be end |
| Generators.GetDataLog | SynapseCore/src/main/java/com/synapse/core/samples/ArraysGenerator.java:44-52 | `getDataLog` fails with NegativeArraySize exactly for a negative count and otherwise fills count entries start + (end − start)·(1 + log((i+1)/count, base)) |
| Generators.SpaceLog | SynapseCore/src/main/java/com/synapse/core/samples/ArraysGenerator.java:37-42 | `spaceLog` refuses end < start, then a negative count; otherwise the base-10 logarithmic points |
| Generators.RangeLogCount | SynapseCore/src/main/java/com/synapse/core/samples/ArraysGenerator.java:33 | the point count of `rangeLog` is round(log(end/start, base)) narrowed to a 32-bit int |
| Generators.RangeLog | SynapseCore/src/main/java/com/synapse/core/samples/ArraysGenerator.java:29-35 | `rangeLog` refuses end < start, then a negative count; otherwise RangeLogCount logarithmic points |
| Generators.LogPointsEndAtEnd | SynapseCore/src/main/java/com/synapse/core/samples/ArraysGenerator.java:44-52 | when log 1 = 0 the last logarithmic point is end, and no point passes end where the logarithm is not positive |
| Rates.CheckPositive | SynapseCore/src/main/java/com/synapse/core/rates/ConstantRate.java:33-36 | a factor passes exactly when it is positive; otherwise an IllegalArgumentException naming the factor |
| Rates.ConstantRate.Make | SynapseCore/src/main/java/com/synapse/core/rates/ConstantRate.java:8-10 | the value is stored unchecked, as deserialization does; the object is valid exactly when the value is positive |
| Rates.ConstantRate.Apply | SynapseCore/src/main/java/com/synapse/core/rates/ConstantRate.java:18-20 | a valid constant rate gives a positive rate at every epoch |
| Rates.ConstantRate.GetFactors | SynapseCore/src/main/java/com/synapse/core/rates/ConstantRate.java:23-25 | one factor, the rate at epoch 0 |
| Rates.ConstantRate.SetFactors | SynapseCore/src/main/java/com/synapse/core/rates/ConstantRate.java:28-36 | an empty array throws out-of-bounds at index 0; a non-positive first factor is refused and the field kept; otherwise the factors become the first given one and the rate stays valid |
| Rates.ConstantRate.Equals | SynapseCore/src/main/java/com/synapse/core/rates/ConstantRate.java:39-43 | equal exactly when it is the same object or another constant rate with the same value |
| Rates.NewConstantRate | SynapseCore/src/main/java/com/synapse/core/rates/ConstantRate.java:12-15 | the constructor throws exactly for a non-positive value and otherwise builds a valid rate with that value |
| Rates.DefaultRate | SynapseCore/src/main/java/com/synapse/core/rates/Rate.java:7-9 | the default schedule gives 1 at epoch 0 |
| Rates.ConstantRateIsConstant | SynapseCore/src/main/java/com/synapse/core/rates/ConstantRate.java:18-20 | the rate does not depend on the epoch and equals the stored factor |
| Rates.ConstantEqualsConsistentWithHash | SynapseCore/src/main/java/com/synapse/core/rates/ConstantRate.java:39-48 | equal constant rates have equal hash codes, whatever the hash function |
| Rates.LinearRate.Default | SynapseCore/src/main/java/com/synapse/core/rates/LinearRate.java:11-13 | the no-argument rate starts at 10 and is valid |
| Rates.LinearRate.Make | SynapseCore/src/main/java/com/synapse/core/rates/LinearRate.java:7-9 | the start value is stored unchecked; valid exactly when positive |
| Rates.LinearRate.Apply | SynapseCore/src/main/java/com/synapse/core/rates/LinearRate.java:22-24 | the rate at an epoch times epoch + 1 is the start value |
| Rates.LinearRate.GetFactors | SynapseCore/src/main/java/com/synapse/core/rates/LinearRate.java:27-29 | one factor, the rate at epoch 0 |
| Rates.LinearRate.SetFactors | SynapseCore/src/main/java/com/synapse/core/rates/LinearRate.java:32-40 | an empty array throws at index 0; a non-positive factor is refused and the field kept; otherwise the start value is replaced and the rate stays valid |
| Rates.LinearRate.Equals | SynapseCore/src/main/java/com/synapse/core/rates/LinearRate.java:43-47 | equal exactly when the same object or another linear rate with the same start value |
| Rates.NewLinearRate | SynapseCore/src/main/java/com/synapse/core/rates/LinearRate.java:15-18 | the constructor throws exactly for a non-positive start and otherwise builds a valid rate |
| Rates.LinearRateDecays | SynapseCore/src/main/java/com/synapse/core/rates/LinearRate.java:22-24 | a valid linear rate is positive and never increases with the epoch, starting from the start value at epoch 0 |
| Rates.ExponentRate.Default | SynapseCore/src/main/java/com/synapse/core/rates/ExponentRate.java:13-16 | the no-argument rate has height 1 and curve 1 and is valid |
| Rates.ExponentRate.Make | SynapseCore/src/main/java/com/synapse/core/rates/ExponentRate.java:10-11 | both fields stored unchecked; valid exactly when both are positive |
| Rates.ExponentRate.Apply | SynapseCore/src/main/java/com/synapse/core/rates/ExponentRate.java:25-27 | the rate is height · exp(−curve · epoch), the exponent schedule's value |
| Rates.ExponentRate.GetFactors | SynapseCore/src/main/java/com/synapse/core/rates/ExponentRate.java:30-32 | the factors are height then curve |
| Rates.ExponentRate.SetFactors | SynapseCore/src/main/java/com/synapse/core/rates/ExponentRate.java:35-40 | fewer than two factors throw out-of-bounds at the first missing index; otherwise the result is the check of both, neither field changes on a refusal, and on success the factors are the first two given |
| Rates.ExponentRate.Equals | SynapseCore/src/main/java/com/synapse/core/rates/ExponentRate.java:50-54 | equal exactly when the same object or another exponent rate with the same height and curve |
| Rates.Check | SynapseCore/src/main/java/com/synapse/core/rates/ExponentRate.java:42-47 | passes exactly when both are positive; a bad height is reported first, then a bad curve |
| Rates.NewExponentRate | SynapseCore/src/main/java/com/synapse/core/rates/ExponentRate.java:18-22 | the constructor throws exactly what the check reports and otherwise builds a valid rate with factors [height, curve] |
| Rates.ExponentRateStart | SynapseCore/src/main/java/com/synapse/core/rates/ExponentRate.java:25-27 | a valid exponent rate gives its height at epoch 0 and a positive rate at every epoch |
| Rates.Rate.Apply | SynapseCore/src/main/java/com/synapse/core/rates/Rate.java:6 | applying the rate object gives the value of the schedule its class and fields describe |
| Rates.RateToken | SynapseCore/src/main/java/com/synapse/core/training/TrainingParameters.java:41 | a null rate is written as null and any rate object as an object |
| Rates.DecodeRate | SynapseCore/src/main/java/com/synapse/core/training/TrainingParameters.java:49 | null reads back as null and an object of any class other than the three rates fails the cast |
| Rates.DecodeRateExact | SynapseCore/src/main/java/com/synapse/core/training/TrainingParameters.java:41-49 | a token reads back as a given schedule exactly when it is the written form of that schedule |
| Rates.ReadRate | SynapseCore/src/main/java/com/synapse/core/training/TrainingParameters.java:49 | reading succeeds exactly when the token decodes, fails with the decoding's error, and on success yields a fresh object of the decoded class and fields, or null |
| Rates.ExponentRateDecays | SynapseCore/src/main/java/com/synapse/core/rates/ExponentRate.java:25-27 | for a non-decreasing exp, a valid exponent rate never grows from one epoch to a later one |
| Rates.ScheduleText | SynapseCore/src/main/java/com/synapse/core/rates/ConstantRate.java:7 | the generated `toString` starts with the letter of its class's simple name and ends with a closing parenthesis |
| Rates.ScheduleTextShowsClass | SynapseCore/src/main/java/com/synapse/core/rates/ExponentRate.java:6 | two rates rendered alike are of the same class, whatever the rendering of their fields |
| Activations.Name | SynapseCore/src/main/java/com/synapse/core/activation/ActivationReLU.java:13-16 | each class's name; only the rectifier is "relu", the two logistic classes share "logistic", and no class falls back to the default name |
| Activations.ClassName | SynapseCore/src/main/java/com/synapse/core/activation/ActivationBase.java:58-60 | the class name hashed by hashCode lies in the activation package |
| Activations.ClassNameInjective | SynapseCore/src/main/java/com/synapse/core/activation/ActivationBase.java:51-60 | two classes have the same class name exactly when they are the same class |
| Activations.KindOf | SynapseCore/src/main/java/com/synapse/core/activation/ActivationBase.java:73-76 | a recognised class name is the name of the class returned |
| Activations.KindOfClassName | SynapseCore/src/main/java/com/synapse/core/activation/ActivationBase.java:64-76 | every activation class is recognised from its own class name |
| Activations.ReluShape | SynapseCore/src/main/java/com/synapse/core/activation/ActivationReLU.java:20-21 | with a non-negative scale the rectifier is non-negative and monotone, and its slope lies between 0 and the scale |
| Activations.Activation.ReLUWith | SynapseCore/src/main/java/com/synapse/core/activation/ActivationReLU.java:18-22 | a rectifier of scale k whose functions read this object's scale |
| Activations.Activation.WithCurve | SynapseCore/src/main/java/com/synapse/core/activation/ActivationLog.java:20-27 | a non-rectifier activation of scale k whose functions are the given formula pair over this object's scale |
| Activations.Activation.Restored | SynapseCore/src/main/java/com/synapse/core/activation/ActivationBase.java:73-76 | an activation read back has scale 0 (the no-argument constructor), owns its functions, and is a rectifier exactly when its class is ReLU; the self-calling functions Java restores are not modelled |
| Activations.Activation.Activate | SynapseCore/src/main/java/com/synapse/core/activation/ActivationBase.java:17-19 | the activator applies the stored formula to the scale of the object that created it |
| Activations.Activation.Deactivate | SynapseCore/src/main/java/com/synapse/core/activation/ActivationBase.java:22-24 | the deactivator applies the stored derivative to the scale of the object that created it |
| Activations.Activation.Activator | SynapseCore/src/main/java/com/synapse/core/activation/ActivationBase.java:17-19 | the returned function agrees with the activator at every point |
| Activations.Activation.Deactivator | SynapseCore/src/main/java/com/synapse/core/activation/ActivationBase.java:22-24 | the returned function agrees with the deactivator at every point |
| Activations.Activation.Externalized | SynapseCore/src/main/java/com/synapse/core/activation/ActivationBase.java:64-70 | the object is written as its class with two serialized lambdas, and that class is read back as the same kind |
| Activations.Activation.SetScale | SynapseCore/src/main/java/com/synapse/core/activation/ActivationBase.java:32-34 | only the scale changes; a rectifier that owns its functions then computes with the new scale |
| Activations.Activation.GetName | SynapseCore/src/main/java/com/synapse/core/activation/ActivationReLU.java:13-16 | the name of the object's class |
| Activations.Activation.Clone | SynapseCore/src/main/java/com/synapse/core/activation/ActivationBase.java:37-48 | a fresh object with the same class, scale and functions; the functions still read the original's scale, so the clone computes what the original computes |
| Activations.Activation.Equals | SynapseCore/src/main/java/com/synapse/core/activation/ActivationBase.java:51-55 | a null argument throws; otherwise equal exactly when the class and the scale agree |
| Activations.Activation.ToString | SynapseCore/src/main/java/com/synapse/core/activation/ActivationBase.java:79-81 | the name, then the rendered scale in parentheses |
| Activations.EqualsConsistentWithHash | SynapseCore/src/main/java/com/synapse/core/activation/ActivationBase.java:51-60 | equal activations have equal hash codes, whatever the hash function |
| Activations.EqualsSymmetric | SynapseCore/src/main/java/com/synapse/core/activation/ActivationBase.java:51-55 | equals gives the same answer in both directions |
| Activations.GetDefault | SynapseCore/src/main/java/com/synapse/core/activation/Activation.java:22-24 | the default is a fresh logistic activation of scale 0.2 |
| Activations.ArrayOf | SynapseCore/src/main/java/com/synapse/core/activation/Activation.java:26-30 | a negative length throws; otherwise an array of that length whose every entry is the given object |
| Activations.RescaleThroughEntry | SynapseCore/src/main/java/com/synapse/core/activation/Activation.java:26-30 | since every entry of such an array is one object, changing the scale through one entry changes it for all |
| Converters.Unsigned | SynapseData/src/main/java/com/synapse/data/converters/ImageService.java:52 | value & 0xFF lies in [0, 256) and agrees with the signed byte modulo 256 |
| Converters.Intensity | SynapseData/src/main/java/com/synapse/data/converters/ImageService.java:51-53 | the scaled byte lies in [0, 1] |
| Converters.IntensityInjective | SynapseData/src/main/java/com/synapse/data/converters/ImageService.java:51-53 | distinct bytes give distinct intensities |
| Converters.SkipAlphaPixel | SynapseData/src/main/java/com/synapse/data/converters/ImageService.java:39 | entry c of pixel q reads byte c + 1 of that pixel's four bytes, so the alpha byte is never read |
| Converters.SkipAlphaInRange | SynapseData/src/main/java/com/synapse/data/converters/ImageService.java:37-39 | every index the loop reads lies inside the byte array |
| Converters.AllChannels | SynapseData/src/main/java/com/synapse/data/converters/ImageService.java:45-47 | one intensity per byte, in order |
| Converters.WithoutAlpha | SynapseData/src/main/java/com/synapse/data/converters/ImageService.java:37 | three entries for every complete four-byte pixel |
| Converters.WithoutAlphaPixel | SynapseData/src/main/java/com/synapse/data/converters/ImageService.java:36-42 | entry 3q + c of the result is the intensity of byte 4q + c + 1 |
| Converters.ArrayWithoutAlpha | SynapseData/src/main/java/com/synapse/data/converters/ImageService.java:36-42 | the loop fills the array with the colour channels of every pixel, alpha skipped |
| Converters.ArrayWithAlpha | SynapseData/src/main/java/com/synapse/data/converters/ImageService.java:44-50 | the loop fills the array with the intensity of every byte |
| Converters.ArrayRGB | SynapseData/src/main/java/com/synapse/data/converters/ImageService.java:25-34 | alpha bytes are dropped exactly when the image has an alpha raster and the caller declines it |
| Converters.ConvertRGB | SynapseData/src/main/java/com/synapse/data/converters/ImageService.java:21-23 | a one-row matrix of the channels, every entry in [0, 1]; no channels means no columns, which matrix creation refuses |
| Datasets.OneHot | SynapseData/src/main/java/com/synapse/data/dataset/Cifar10.java:75-78 | a valid one-row matrix of the given width with 1 at the index and 0 elsewhere |
| Datasets.OneHotClass | SynapseData/src/main/java/com/synapse/data/dataset/Cifar10.java:75-78 | a tester reads the class of a one-hot target back as its index |
| Datasets.OverlaidImage | SynapseData/src/main/java/com/synapse/data/dataset/Cifar10.java:32-40 | on a whole image the copy leaves the red plane in the first 1024 positions, then the last green and the last blue byte, then zeros |
| Datasets.FormatBytes | SynapseData/src/main/java/com/synapse/data/dataset/Cifar10.java:32-40 | the copy succeeds exactly when its passes stay inside the array, throws at the first index past the end otherwise, and yields the overlapping copy of the same length |
| Datasets.SourceEntries | SynapseData/src/main/java/com/synapse/data/dataset/Cifar10.java:83-88 | the same overlapping copy, of intensities, with the same out-of-bounds condition |
| Datasets.SourceOf | SynapseData/src/main/java/com/synapse/data/dataset/Cifar10.java:81-90 | a successful source is a valid one-row matrix with one column per byte read |
| Datasets.Cifar10Reader.NextTarget | SynapseData/src/main/java/com/synapse/data/dataset/Cifar10.java:74-79 | one byte is consumed; the target is the one-hot row of the label exactly when the label is below 10, and an index error at the label otherwise, -1 at the end of the stream included |
| Datasets.Cifar10Reader.NextSource | SynapseData/src/main/java/com/synapse/data/dataset/Cifar10.java:81-90 | up to 3072 bytes are consumed and the source is built from exactly those |
| Datasets.Cifar10Reader.Next | SynapseData/src/main/java/com/synapse/data/dataset/Cifar10.java:64-72 | the sample read and the stream left match the record function of the stream |
| Datasets.FullRecord | SynapseData/src/main/java/com/synapse/data/dataset/Cifar10.java:64-90 | a labelled record with a whole image gives the one-hot target and a 3072-entry source holding the red plane, then the last green and blue bytes, then zeros |
| Datasets.ShortRecord | SynapseData/src/main/java/com/synapse/data/dataset/Cifar10.java:48-90 | a stream of exactly 3072 bytes passes hasNext, yet its record has only 3071 source entries and empties the stream |
| Datasets.EndOfStreamRecord | SynapseData/src/main/java/com/synapse/data/dataset/Cifar10.java:74-79 | at the end of the stream reading a record fails with index -1 |
| Datasets.Interleaved | SynapseData/src/main/java/com/synapse/data/dataset/Cifar10.java:32-40 | the evidently intended planar-to-interleaved copy keeps the image size |
| Datasets.InterleavedPixel | SynapseData/src/main/java/com/synapse/data/dataset/Cifar10.java:32-40 | in the intended copy channel c of pixel k is byte c · 1024 + k, so every byte of the record appears once |
| Datasets.IndexOf | SynapseData/src/main/java/com/synapse/data/dataset/Iris.java:30 | List.indexOf: the first position of the species, or -1 exactly when it is absent |
| Datasets.FirstUnparsed | SynapseData/src/main/java/com/synapse/data/dataset/Iris.java:27-29 | the first field that does not parse, every field before it parsing |
| Datasets.Measurements | SynapseData/src/main/java/com/synapse/data/dataset/Iris.java:25-29 | the four parsed measurements, in field order |
| Datasets.IrisSampleOk | SynapseData/src/main/java/com/synapse/data/dataset/Iris.java:24-32 | a line converts exactly when it has five fields, the first four parse and the fifth is a known species; the sample holds the four values and a target whose class is the species' position |
| Datasets.ConvertLine | SynapseData/src/main/java/com/synapse/data/dataset/Iris.java:24-32 | the loop gives what the line's conversion function gives, failures included |
| Datasets.FirstUnparsedStays | SynapseData/src/main/java/com/synapse/data/dataset/Iris.java:27-29 | a failing field among the first n stays the first failure among more fields |
| Datasets.ConvertAllInOrder | SynapseData/src/main/java/com/synapse/data/dataset/Iris.java:14-17 | mapping a throwing conversion over a list succeeds exactly when every element converts, keeping order, and otherwise fails with the first failing element's exception |
| Datasets.ConvertLinesInOrder | SynapseData/src/main/java/com/synapse/data/dataset/Iris.java:13-18 | the file converts exactly when every line does, to those lines' samples in order, and otherwise fails with the first failing line's exception |
| Numerics.Wrap32 | SynapseCore/src/main/java/com/synapse/core/samples/ArraysGenerator.java:8 | the narrowing (int) cast: the result is an int congruent to its argument modulo 2^32, and an int already in range is kept |
| Numerics.RoundLong | SynapseCore/src/main/java/com/synapse/core/samples/ArraysGenerator.java:8 | Math.round: within one half of its argument when floor(x + 0.5) fits a long, saturated to the long range otherwise |
| Text.IntToString | SynapseDesktop/src/main/java/com/synapse/desktop/controllers/NetStructureController.java:100 | String.valueOf(int): a minus sign exactly for a negative number, and the plain digits otherwise |
| Text.NatToStringValue | SynapseDesktop/src/main/java/com/synapse/desktop/controllers/NetStructureController.java:100 | the digits String.valueOf writes read back as the number |
| Text.IntToStringInjective | SynapseDesktop/src/main/java/com/synapse/desktop/controllers/NetStructureController.java:100 | distinct numbers are written differently |
| Text.Pieces | SynapseDesktop/src/main/java/com/synapse/desktop/controllers/NetStructureController.java:48 | the pieces between separators: at least one, none containing the separator |
| Text.PiecesJoin | SynapseDesktop/src/main/java/com/synapse/desktop/controllers/NetStructureController.java:48 | joining the pieces with the separator gives the text back |
| Text.DropTrailingEmpty | SynapseDesktop/src/main/java/com/synapse/desktop/controllers/NetStructureController.java:59 | String.split drops exactly the trailing empty pieces: the rest is a prefix ending in a non-empty piece |
| Text.Split | SynapseDesktop/src/main/java/com/synapse/desktop/controllers/NetStructureController.java:59 | no piece of String.split contains the separator |
| Text.Trim | SynapseDesktop/src/main/java/com/synapse/desktop/controllers/NetStructureController.java:49 | trim: no longer than the text, no blank at either end, and a text without blanks at its ends is kept |
| Text.ParseUnsignedInt | SynapseDesktop/src/main/java/com/synapse/desktop/controllers/NetStructureController.java:50 | Integer.parseUnsignedInt: parses exactly a non-empty run of digits after an optional plus sign whose value fits 32 bits unsigned; the int is that value modulo 2^32, and the value itself when it fits an int |
| Text.ParseUnsignedIntOfText | SynapseDesktop/src/main/java/com/synapse/desktop/controllers/NetStructureController.java:50 | the text of a non-negative int parses back to it and the text of a negative one does not parse |
| Controllers.Product32 | SynapseDesktop/src/main/java/com/synapse/desktop/controllers/NetStructureController.java:51 | reduce(1, x * y) over ints stays an int, wrapping at every step |
| Controllers.ParseAll | SynapseDesktop/src/main/java/com/synapse/desktop/controllers/NetStructureController.java:50 | the parse of every text succeeds exactly when each text parses, giving their values in order |
| Controllers.NonEmpty | SynapseDesktop/src/main/java/com/synapse/desktop/controllers/NetStructureController.java:60 | the filtered pieces are all non-empty |
| Controllers.SpacedSnoc | SynapseDesktop/src/main/java/com/synapse/desktop/controllers/NetStructureController.java:104-106 | each loop pass appends a size's text and a space |
| Controllers.IntTextPlain | SynapseDesktop/src/main/java/com/synapse/desktop/controllers/NetStructureController.java:100 | the text of a number has no '*', no space and no blanks to trim |
| Controllers.ParseLayerOfText | SynapseDesktop/src/main/java/com/synapse/desktop/controllers/NetStructureController.java:46-55 | parseLayer reads back the text of a size exactly when the size is not negative |
| Controllers.Texts | SynapseDesktop/src/main/java/com/synapse/desktop/controllers/NetStructureController.java:104-106 | the decimal texts of the sizes, in order |
| Controllers.PiecesOfSpaced | SynapseDesktop/src/main/java/com/synapse/desktop/controllers/NetStructureController.java:103-107 | cutting the hidden-size text at spaces gives the sizes' texts and one empty piece |
| Controllers.SpacedHasSpace | SynapseDesktop/src/main/java/com/synapse/desktop/controllers/NetStructureController.java:105 | a non-empty hidden-size text contains a space |
| Controllers.NonEmptyKeeps | SynapseDesktop/src/main/java/com/synapse/desktop/controllers/NetStructureController.java:60 | the filter keeps a list of non-empty texts whole |
| Controllers.ParseLayersOfSpaced | SynapseDesktop/src/main/java/com/synapse/desktop/controllers/NetStructureController.java:57-66 | parseLayers reads back the hidden sizes setLayers wrote when none is negative |
| Controllers.SplitSpaced | SynapseDesktop/src/main/java/com/synapse/desktop/controllers/NetStructureController.java:59-60 | splitting the hidden-size text at spaces and dropping empty pieces gives the sizes' texts |
| Controllers.ParseTexts | SynapseDesktop/src/main/java/com/synapse/desktop/controllers/NetStructureController.java:61 | the texts of non-negative ints parse back to them |
| Controllers.Framed | SynapseDesktop/src/main/java/com/synapse/desktop/controllers/NetStructureController.java:90-94 | the input size, then the hidden sizes, then the output size |
| Controllers.SpacedText | SynapseDesktop/src/main/java/com/synapse/desktop/controllers/NetStructureController.java:103-106 | the StringBuilder loop builds each hidden size's text followed by a space |
| Controllers.NetStructureController.GetItem | SynapseDesktop/src/main/java/com/synapse/desktop/controllers/NetStructureController.java:85-97 | succeeds exactly when isValid holds, a null pointer otherwise; the item is the parsed input size, the parsed hidden sizes and the parsed output size |
| Controllers.NetStructureController.SetLayers | SynapseDesktop/src/main/java/com/synapse/desktop/controllers/NetStructureController.java:99-109 | an empty item throws before any field changes; otherwise the first and last sizes are written, and the hidden field is rewritten only when there are hidden sizes |
| Controllers.LayersRoundTrip | SynapseDesktop/src/main/java/com/synapse/desktop/controllers/NetStructureController.java:85-109 | after setLayers of an item with hidden sizes and no negative size, every field parses back to what was written, so getItem returns the item |
| Controllers.TrailingStar | SynapseDesktop/src/main/java/com/synapse/desktop/controllers/NetStructureController.java:46-55 | "3*" parses as 3, the empty piece after the star being dropped by split |
| Controllers.LeadingStar | SynapseDesktop/src/main/java/com/synapse/desktop/controllers/NetStructureController.java:46-55 | "*3" does not parse: the empty piece before the star is kept |
| Controllers.StarAlone | SynapseDesktop/src/main/java/com/synapse/desktop/controllers/NetStructureController.java:46-55 | "*" alone splits into no pieces and parses as the empty product, 1 |
| Extensions.Pattern | SynapseDesktop/src/main/java/com/synapse/desktop/io/Extension.java:26-28 | toString is "*." followed by the extension name |
| Extensions.PatternInjective | SynapseDesktop/src/main/java/com/synapse/desktop/io/Extension.java:8-28 | distinct constants have distinct patterns |
| Extensions.ChooserFilter | SynapseDesktop/src/main/java/com/synapse/desktop/io/Extension.java:34-36 | the chooser filter's pattern is toString |
| Extensions.AcceptsOnlyAsterisk | SynapseDesktop/src/main/java/com/synapse/desktop/io/Extension.java:30-32 | the file filter accepts a name with the extension exactly when the part before the dot ends with '*' |
| Extensions.AcceptsExtensionOfNamed | SynapseDesktop/src/main/java/com/synapse/desktop/io/Extension.java:30-32 | the evidently intended filter accepts every name with the extension |
| Extensions.AcceptsExtensionOfAccepted | SynapseDesktop/src/main/java/com/synapse/desktop/io/Extension.java:30-32 | the intended filter accepts whatever the written filter accepts |
| Experiments.Tabbed | SynapseCore/src/main/java/com/synapse/core/tools/Reportable.java:13 | one line per sub-report line, in order, each a tab followed by that line |
| Experiments.TabbedLead | SynapseCore/src/main/java/com/synapse/core/tools/Reportable.java:13 | every indented line starts with a tab |
| Experiments.TabbedAppend | SynapseCore/src/main/java/com/synapse/core/tools/Reportable.java:12-14 | indenting two reports one after the other indents each of them |
| Experiments.AddSubReports | SynapseCore/src/main/java/com/synapse/core/tools/Reportable.java:12-14 | on a modifiable list the tabbed sub-report lines are appended in order after the existing lines, which stay untouched; an unmodifiable list is left as it was and throws UnsupportedOperationException exactly when there is a line to add |
| Experiments.NetParametersToken | SynapseCore/src/main/java/com/synapse/core/experimentation/ExperimentParameters.java:50 | a null net-parameters field is written as null, any object as an object |
| Experiments.TrainingParametersToken | SynapseCore/src/main/java/com/synapse/core/experimentation/ExperimentParameters.java:51 | a null training-parameters field is written as null, any object as an object |
| Experiments.DecodeNetParameters | SynapseCore/src/main/java/com/synapse/core/experimentation/ExperimentParameters.java:56 | null reads back as null and an object of another class fails the cast |
| Experiments.DecodeTrainingParameters | SynapseCore/src/main/java/com/synapse/core/experimentation/ExperimentParameters.java:57 | null reads back as null and an object of another class fails the cast |
| Experiments.ReadExperimentParameters | SynapseCore/src/main/java/com/synapse/core/experimentation/ExperimentParameters.java:55-58 | a stream with fewer than two objects cannot be read |
| Experiments.NetParametersTokenRoundTrip | SynapseCore/src/main/java/com/synapse/core/experimentation/ExperimentParameters.java:50-56 | whatever net parameters write reads back as their sizes and activation class, null as null |
| Experiments.TrainingParametersTokenRoundTrip | SynapseCore/src/main/java/com/synapse/core/experimentation/ExperimentParameters.java:51-57 | whatever training parameters write reads back as their four fields, null as null |
| Experiments.ExperimentParametersRoundTrip | SynapseCore/src/main/java/com/synapse/core/experimentation/ExperimentParameters.java:48-58 | the net and the training parameters written one after the other read back in that order, leaving the rest of the stream |
| Experiments.ParametersReport | SynapseCore/src/main/java/com/synapse/core/experimentation/ExperimentParameters.java:25-33 | the header, then the training report's lines, then the net report's, each behind a tab; every line after the header starts with a tab |
| Experiments.ActivationText | SynapseCore/src/main/java/com/synapse/core/nets/NetParameters.java:63 | a null activation is rendered as "null" |
| Experiments.ExperimentParameters.constructor | SynapseCore/src/main/java/com/synapse/core/experimentation/ExperimentParameters.java:15-22 | the no-argument constructor leaves all three fields null |
| Experiments.ExperimentParameters.Report | SynapseCore/src/main/java/com/synapse/core/experimentation/ExperimentParameters.java:25-33 | a null part throws NullPointerException; otherwise nine lines: the header, the training report and the net report, each behind a tab |
| Experiments.ExperimentParameters.Clone | SynapseCore/src/main/java/com/synapse/core/experimentation/ExperimentParameters.java:36-46 | a null part throws; otherwise a fresh object sharing the sample service, with fresh training and net parameters whose fields equal the originals' |
| Experiments.ExperimentParameters.WriteExternal | SynapseCore/src/main/java/com/synapse/core/experimentation/ExperimentParameters.java:49-52 | the net parameters then the training parameters are written, nothing of the sample service, and they read back as both parts |
| Experiments.ExperimentParameters.ReadExternal | SynapseCore/src/main/java/com/synapse/core/experimentation/ExperimentParameters.java:55-58 | succeeds exactly when both objects read back; the sample service is kept, and the two fields become new objects holding what was read |
| Experiments.ReadNetParameters | SynapseCore/src/main/java/com/synapse/core/experimentation/ExperimentParameters.java:56 | null, or a fresh object with the decoded sizes and an activation of the decoded class |
| Experiments.ReadTrainingParameters | SynapseCore/src/main/java/com/synapse/core/experimentation/ExperimentParameters.java:57 | null, or a fresh object whose fields are the decoded ones |
| Experiments.ReadExperimentParametersObject | SynapseCore/src/main/java/com/synapse/core/experimentation/ExperimentParameters.java:14-58 | deserialising gives a fresh object without a sample service whose two parts are what was read |
| Experiments.SetNet | SynapseCore/src/main/java/com/synapse/core/experimentation/ExperimentParametersFactory.java:43-47 | a net setter changes exactly the field it names |
| Experiments.SetTraining | SynapseCore/src/main/java/com/synapse/core/experimentation/ExperimentParametersFactory.java:51-65 | a training setter changes exactly the field it names |
| Experiments.SweptLength | SynapseCore/src/main/java/com/synapse/core/experimentation/ExperimentParametersFactory.java:79-86 | a sweep over k sources with m values has m·k entries |
| Experiments.SweptAt | SynapseCore/src/main/java/com/synapse/core/experimentation/ExperimentParametersFactory.java:79-86 | entry e of a sweep is source e mod k with value e div k applied: the values vary slowest |
| Experiments.SweptEvery | SynapseCore/src/main/java/com/synapse/core/experimentation/ExperimentParametersFactory.java:79-86 | the same description holds for every entry at once |
| Experiments.NetClones | SynapseCore/src/main/java/com/synapse/core/experimentation/ExperimentParametersFactory.java:80-84 | one fresh clone per source, in source order, each with the value applied |
| Experiments.TrainingClones | SynapseCore/src/main/java/com/synapse/core/experimentation/ExperimentParametersFactory.java:103-107 | one fresh clone per source, in source order, each with the value applied |
| Experiments.NetDefaults | SynapseCore/src/main/java/com/synapse/core/experimentation/ExperimentParametersFactory.java:72-77 | from an empty list, one new object per value with that value set, the activation unset and the sizes empty where Java leaves them null |
| Experiments.TrainingDefaultsWith | SynapseCore/src/main/java/com/synapse/core/experimentation/ExperimentParametersFactory.java:94-99 | from an empty list, one new object per value with that value set and the other fields at their defaults |
| Experiments.NetRounds | SynapseCore/src/main/java/com/synapse/core/experimentation/ExperimentParametersFactory.java:78-86 | fresh objects whose fields are the sweep of the sources' fields |
| Experiments.TrainingRounds | SynapseCore/src/main/java/com/synapse/core/experimentation/ExperimentParametersFactory.java:101-109 | fresh objects whose fields are the sweep of the sources' fields |
| Experiments.SweepNet | SynapseCore/src/main/java/com/synapse/core/experimentation/ExperimentParametersFactory.java:68-88 | every object is new; from an empty list one per value, otherwise m·k clones with entry e a copy of source e mod k set to value e div k |
| Experiments.SweepTraining | SynapseCore/src/main/java/com/synapse/core/experimentation/ExperimentParametersFactory.java:90-111 | every object is new; from an empty list one per value, otherwise m·k clones with entry e a copy of source e mod k set to value e div k |
| Experiments.BlockLength | SynapseCore/src/main/java/com/synapse/core/experimentation/ExperimentParametersFactory.java:23-31 | one net configuration gives (number of trainings)·(number of services) experiments |
| Experiments.CombinationsLength | SynapseCore/src/main/java/com/synapse/core/experimentation/ExperimentParametersFactory.java:19-34 | the experiments number nets·trainings·services |
| Experiments.BlockAt | SynapseCore/src/main/java/com/synapse/core/experimentation/ExperimentParametersFactory.java:23-31 | within one net's block, training j with service k stands at j·S + k, S being the number of services |
| Experiments.CombinationsAt | SynapseCore/src/main/java/com/synapse/core/experimentation/ExperimentParametersFactory.java:19-34 | the triple (net i, training j, service k) stands at i·T·S + j·S + k for T trainings and S services: nets outermost, services innermost |
| Experiments.BlockFrom | SynapseCore/src/main/java/com/synapse/core/experimentation/ExperimentParametersFactory.java:23-31 | every entry of a net's block holds that net and a training configuration and a service from the lists |
| Experiments.CombinationsFrom | SynapseCore/src/main/java/com/synapse/core/experimentation/ExperimentParametersFactory.java:19-34 | every triple draws its three parts from the three lists |
| Experiments.ExperimentParametersFactory.constructor | SynapseCore/src/main/java/com/synapse/core/experimentation/ExperimentParametersFactory.java:15-17 | empty configuration lists and no sample-service list |
| Experiments.ExperimentParametersFactory.SetSampleServices | SynapseCore/src/main/java/com/synapse/core/experimentation/ExperimentParametersFactory.java:38-40 | the list is stored as given |
| Experiments.ExperimentParametersFactory.SetNetParams | SynapseCore/src/main/java/com/synapse/core/experimentation/ExperimentParametersFactory.java:68-88 | the net configurations are replaced by new objects forming the sweep of the old ones |
| Experiments.ExperimentParametersFactory.SetTrainingParams | SynapseCore/src/main/java/com/synapse/core/experimentation/ExperimentParametersFactory.java:90-111 | the training configurations are replaced by new objects forming the sweep of the old ones |
| Experiments.ExperimentParametersFactory.SetLayerSizes | SynapseCore/src/main/java/com/synapse/core/experimentation/ExperimentParametersFactory.java:42-44 | the net sweep over the layer-size values |
| Experiments.ExperimentParametersFactory.SetActivations | SynapseCore/src/main/java/com/synapse/core/experimentation/ExperimentParametersFactory.java:46-48 | the net sweep over the activation values |
| Experiments.ExperimentParametersFactory.SetRates | SynapseCore/src/main/java/com/synapse/core/experimentation/ExperimentParametersFactory.java:51-53 | the training sweep over the rates |
| Experiments.ExperimentParametersFactory.SetErrorLimits | SynapseCore/src/main/java/com/synapse/core/experimentation/ExperimentParametersFactory.java:55-57 | the training sweep over the error limits |
| Experiments.ExperimentParametersFactory.SetBatchSizes | SynapseCore/src/main/java/com/synapse/core/experimentation/ExperimentParametersFactory.java:59-61 | the training sweep over the batch sizes |
| Experiments.ExperimentParametersFactory.SetMaxEpochs | SynapseCore/src/main/java/com/synapse/core/experimentation/ExperimentParametersFactory.java:63-65 | the training sweep over the epoch limits |
| Experiments.ExperimentParametersFactory.SetNetParameters | SynapseCore/src/main/java/com/synapse/core/experimentation/ExperimentParametersFactory.java:113-115 | the given configurations are appended to the current ones |
| Experiments.ExperimentParametersFactory.SetTrainingParameters | SynapseCore/src/main/java/com/synapse/core/experimentation/ExperimentParametersFactory.java:117-119 | the given configurations are appended to the current ones |
| Experiments.ExperimentParametersFactory.GetExpParams | SynapseCore/src/main/java/com/synapse/core/experimentation/ExperimentParametersFactory.java:19-34 | throws a null pointer exactly when the service list was never set and the innermost loop is reached; otherwise one fresh experiment per triple, net-major, holding the configuration and service objects themselves |
| Experiments.NetBlock | SynapseCore/src/main/java/com/synapse/core/experimentation/ExperimentParametersFactory.java:23-31 | one fresh experiment per (training, service) pair of one net, in order |
| Experiments.TrainingRow | SynapseCore/src/main/java/com/synapse/core/experimentation/ExperimentParametersFactory.java:24-31 | one fresh experiment per service for one net and one training configuration |
| Experiments.SweepNets | SynapseCore/src/main/java/com/synapse/core/experimentation/Experimenter.java:72-73 | the activation sweep then the layer-size sweep give (number of sizes)·(number of activations) fresh configurations, each with a size and an activation from the lists |
| Experiments.SweepTrainingStage | SynapseCore/src/main/java/com/synapse/core/experimentation/Experimenter.java:79-81 | one later stage multiplies the configurations by its width and keeps every field drawn from its list |
| Experiments.SweepTrainings | SynapseCore/src/main/java/com/synapse/core/experimentation/Experimenter.java:78-81 | epoch limits, rates, error limits and batch sizes in turn give the product of the four lengths of fresh configurations, each field drawn from its list |
| Experiments.Experimenter.constructor | SynapseCore/src/main/java/com/synapse/core/experimentation/Experimenter.java:18-34 | every list starts unset |
| Experiments.Experimenter.SetSampleServices | SynapseCore/src/main/java/com/synapse/core/experimentation/Experimenter.java:93-95 | the arguments become the list, in order |
| Experiments.Experimenter.SetEpochCounts | SynapseCore/src/main/java/com/synapse/core/experimentation/Experimenter.java:97-99 | the arguments become the list, in order |
| Experiments.Experimenter.SetBatchSizes | SynapseCore/src/main/java/com/synapse/core/experimentation/Experimenter.java:101-103 | the arguments become the list, in order |
| Experiments.Experimenter.SetErrorLimits | SynapseCore/src/main/java/com/synapse/core/experimentation/Experimenter.java:105-107 | the arguments become the list, in order |
| Experiments.Experimenter.SetLayerSizes | SynapseCore/src/main/java/com/synapse/core/experimentation/Experimenter.java:109-111 | the arguments become the list, in order |
| Experiments.Experimenter.SetActivations | SynapseCore/src/main/java/com/synapse/core/experimentation/Experimenter.java:113-115 | the arguments become the list, in order |
| Experiments.Experimenter.SetRates | SynapseCore/src/main/java/com/synapse/core/experimentation/Experimenter.java:117-119 | the arguments become the list, in order |
| Experiments.Experimenter.SetNetParameters | SynapseCore/src/main/java/com/synapse/core/experimentation/Experimenter.java:121-123 | the arguments become the list, in order |
| Experiments.Experimenter.SetTrainingParameters | SynapseCore/src/main/java/com/synapse/core/experimentation/Experimenter.java:125-127 | the arguments become the list, in order |
| Experiments.Experimenter.Call | SynapseCore/src/main/java/com/synapse/core/experimentation/Experimenter.java:43-64 | fails exactly when a check fails, with the first failing check's exception in the source's order, a never-set service list being a null pointer; otherwise the count of net configurations times training configurations times services of fresh experiments, each drawn from the lists, with fresh configurations where they were swept |
| Experiments.Experimenter.MakeExperimentParameters | SynapseCore/src/main/java/com/synapse/core/experimentation/Experimenter.java:66-86 | explicit configuration lists are used as given and absent ones are swept; every net, training configuration and service is combined |
| Experiments.PutNextKeepsConsecutive | SynapseCore/src/main/java/com/synapse/core/experimentation/ExperimentResult.java:40-42 | putting under size() on keys 0..n−1 adds key n |
| Experiments.PutRangeKeepsConsecutive | SynapseCore/src/main/java/com/synapse/core/experimentation/ExperimentResult.java:68-72 | putting under keys below n keeps the keys consecutive, up to the larger of the two counts |
| Experiments.Overlay | SynapseCore/src/main/java/com/synapse/core/experimentation/ExperimentResult.java:68-72 | keys 0..n−1 hold the values put, in order, and other keys keep their entries |
| Experiments.OverlayKeepsConsecutive | SynapseCore/src/main/java/com/synapse/core/experimentation/ExperimentResult.java:65-73 | the read loop keeps the keys 0, 1, … consecutive |
| Experiments.DurationParts | SynapseCore/src/main/java/com/synapse/core/experimentation/ExperimentResult.java:29 | for a non-negative duration the hours, minutes and seconds parts lie in [0, 24), [0, 60), [0, 60) and recompose the whole seconds with the whole days |
| Experiments.ResultReportSnoc | SynapseCore/src/main/java/com/synapse/core/experimentation/ExperimentResult.java:30-36 | one more experiment adds its lines at the end of the report |
| Experiments.EntriesLinesSize | SynapseCore/src/main/java/com/synapse/core/experimentation/ExperimentResult.java:30-36 | each experiment adds a heading and both reports' lines |
| Experiments.ResultReportIndented | SynapseCore/src/main/java/com/synapse/core/experimentation/ExperimentResult.java:26-38 | every line of the report after the header is indented |
| Experiments.EntriesIndented | SynapseCore/src/main/java/com/synapse/core/experimentation/ExperimentResult.java:33-35 | every experiment line starts with a tab |
| Experiments.PairTokens | SynapseCore/src/main/java/com/synapse/core/experimentation/ExperimentResult.java:57-61 | two tokens per experiment |
| Experiments.DecodeExperimentParameters | SynapseCore/src/main/java/com/synapse/core/experimentation/ExperimentResult.java:69 | null reads as null and another class fails the cast |
| Experiments.DecodeTrainingResult | SynapseCore/src/main/java/com/synapse/core/experimentation/ExperimentResult.java:70 | null reads as null and another class fails the cast |
| Experiments.RecordRoundTrip | SynapseCore/src/main/java/com/synapse/core/experimentation/ExperimentResult.java:54-73 | reading back a written record gives the duration and every experiment, in order |
| Experiments.ExperienceRoundTrip | SynapseCore/src/main/java/com/synapse/core/experimentation/ExperimentResult.java:69-70 | one written experiment reads back as its two parts |
| Experiments.ExperienceListRoundTrip | SynapseCore/src/main/java/com/synapse/core/experimentation/ExperimentResult.java:68-72 | n written experiments read back in order, leaving the rest of the stream |
| Experiments.ReportEntry | SynapseCore/src/main/java/com/synapse/core/experimentation/ExperimentResult.java:34-35 | none exactly when the parameters miss a part; otherwise the parameters' and the result's reports |
| Experiments.ParametersObjectDecodes | SynapseCore/src/main/java/com/synapse/core/experimentation/ExperimentParameters.java:49-58 | whatever experiment parameters write reads back as their two parts |
| Experiments.ResultObjectDecodes | SynapseCore/src/main/java/com/synapse/core/training/TrainingResult.java:81-124 | a written training result reads back as its fields |
| Experiments.WrittenPair | SynapseCore/src/main/java/com/synapse/core/experimentation/ExperimentResult.java:59-60 | writing one experiment throws exactly when its result has no duration |
| Experiments.ReportExperiences | SynapseCore/src/main/java/com/synapse/core/experimentation/ExperimentResult.java:30-36 | the loop fails exactly when some experiment's parameters miss a part, and otherwise gives the report of the experiments in key order |
| Experiments.WriteExperiences | SynapseCore/src/main/java/com/synapse/core/experimentation/ExperimentResult.java:57-61 | the loop fails exactly when some result has no duration, and otherwise writes every experiment's pair in key order |
| Experiments.ExperienceAt | SynapseCore/src/main/java/com/synapse/core/experimentation/ExperimentResult.java:69-70 | reading one experiment takes its two tokens |
| Experiments.ExperienceListAt | SynapseCore/src/main/java/com/synapse/core/experimentation/ExperimentResult.java:68-72 | reading n experiments takes two tokens each, the k-th from tokens 2k and 2k + 1 |
| Experiments.ReadExperienceObjects | SynapseCore/src/main/java/com/synapse/core/experimentation/ExperimentResult.java:69-70 | one pass yields fresh objects holding what the two tokens describe |
| Experiments.ReadNextExperience | SynapseCore/src/main/java/com/synapse/core/experimentation/ExperimentResult.java:68-72 | one pass adds one fresh experiment and leaves those read before |
| Experiments.ReadExperienceObjectList | SynapseCore/src/main/java/com/synapse/core/experimentation/ExperimentResult.java:68-72 | the loop yields n fresh experiments, each holding what its tokens describe |
| Experiments.ExperimentResult.constructor | SynapseCore/src/main/java/com/synapse/core/experimentation/ExperimentResult.java:16-23 | no experiments and no duration |
| Experiments.ExperimentResult.SetDuration | SynapseCore/src/main/java/com/synapse/core/experimentation/ExperimentResult.java:21-23 | only the duration changes |
| Experiments.ExperimentResult.AddExperience | SynapseCore/src/main/java/com/synapse/core/experimentation/ExperimentResult.java:40-42 | a null part throws and nothing changes; otherwise the pair is put under the next number and the keys stay 0..n |
| Experiments.ExperimentResult.WriteExternal | SynapseCore/src/main/java/com/synapse/core/experimentation/ExperimentResult.java:54-62 | throws exactly when the duration or some result's duration is missing; otherwise the duration, the count and each pair in key order, which reads back as the duration and every experiment |
| Experiments.ExperimentResult.PutExperiences | SynapseCore/src/main/java/com/synapse/core/experimentation/ExperimentResult.java:68-72 | the n experiments read are put under keys 0..n−1 and the keys stay consecutive |
| Experiments.ExperimentResult.ReadExternal | SynapseCore/src/main/java/com/synapse/core/experimentation/ExperimentResult.java:65-73 | succeeds exactly when the record reads back; the duration is replaced and keys 0..n−1 take fresh experiments holding what was read, higher keys kept |
| Experiments.ExperimentResult.Report | SynapseCore/src/main/java/com/synapse/core/experimentation/ExperimentResult.java:26-38 | throws exactly when the duration is missing or some parameters miss a part; otherwise the header, the duration line and each experiment's number and reports in key order |

## Left out

- Reading and writing files, images, sockets and the console is not modelled. A stream is the sequence of tokens or bytes it holds, and an image is its raster bytes.
- Java object streams are flattened to typed tokens (`Streams.Token`). Stream headers, handles and back-references are not modelled.
- Floating point is modelled as real arithmetic. There is no rounding, NaN or infinity, except where the model writes out a division by zero the source reaches.
- Transcendental functions (`Math.exp`, `tanh`, `atan`, `sin`, `Math.log`) are parameters, as are `Double.parseDouble`, the rendering of doubles in reports, and `hashCode`. Their values are not computed.
- Randomness (`Math.random` in net initialisation) is a parameter `draw`. Clocks (`System.currentTimeMillis`) are a parameter `duration`.
- Concurrency is not modelled. The parallel tester's threads and the parallel experimenter are left out. `performExperiments` is abstract in `Experimenter`, and its serial and parallel implementations and the `Experiment` runnable are not part of this model.
- `toString`, `print`, `toStringsByRows` and `iterator` of the matrices are not modelled, and neither are `norm`/`normalize`. Only reports are modelled: the report functions return the lines the source prints.
- `MatrixUtils` calls `getItem(i)`, `setItem(i, v)`, `setItem(row, column, v)` and `getItemsNumber()`, which the matrix interface of this snapshot does not declare. The model reads them as the flat and row-major buffer accesses of `MatrixJava`: Java's array bounds check on the flat ones, and `getItem`'s row-then-column check on the two-index one.
- MatrixUtils.TransAsWritten / MatrixUtils.Trans: the call `trans(a, a)` is modelled (a square a passes both checks), but the entries it leaves are not stated. In Java the loop writes b(j, i) into the buffer it is still reading, so the upper triangle is copied over the lower before it is read: [[1, 2], [3, 4]] becomes [[1, 2], [2, 4]]. Nothing in the source calls `trans`.
- `MatrixEJML` and `MatrixUJMP` wrap third-party libraries and are not part of this model.
- `NetBuilder` and the `Net(NetParameters)` constructor are not modelled. Neither are `getActivators`/`getDeactivates`: a pass reads the activation array directly.
- SimpleTeaching.SimpleTeacher.ForwardPass: the source calls `net.getActivator()`, which `Net` does not declare (it has `getActivators`). The model reads this as one activator `f`, a parameter, applied in every layer. It does not tie `f` to the net's activation objects; `Backprop.TraceIsPass` relates the two when every layer's activator is `f`.
- SimpleTeaching.SimpleTeacher.BackwardPass: the source calls `net.getDeactivator()`, which `Net` does not declare. The model reads this as one derivative `df`, a parameter, applied in every layer. Nothing in the model ties `df` to the derivative of `f` or to the net's activation objects.
- MiddleTeaching.CalcContext.Pass: the same reading of `net.getActivator()` and `net.getDeactivator()`: one `f` and one `df` for every layer, both parameters, not tied to each other or to the net's activation objects.
- Testers.SerialTester.constructor: the source calls `super(name, parameters)`, but `Tester` has only a no-argument constructor. The model reads the call as setting the name, then `setTrainingParameters(parameters)`, with no best net and no stop reason.
- Nets.NetParameters.CreateNet: the source passes the single `activation` to `new Net(layerSizes, …)`, whose constructors take an array. The model reads this as an array of `layerSizes.length - 1` entries, every one the same activation object (`Activation.arrayOf`).
- JavaFX widgets, listeners, labels and dialogs are not modelled: a text field is the string it holds. `writeToFile`, `readFromFile` and `loadPixels` read files and images and are not modelled.
- Cifar10 `in.available()` is modelled as the number of bytes left. The wrapping of `EOFException` and `IOException` is not modelled.
- Matrices.MatrixJava: `rows * columns` is an unbounded product here, while Java's `int` product can wrap around. A matrix too large for an `int` is not modelled.
- Matrices.MatrixJava: the older `nets/Matrix.java` is not modelled separately. Its differences are named at the top of `matrix_java.dfy`: `T()`, a static `zeros`, no `scaleAdd`, `super.clone()`, and `Matrix(int columns)` refusing a non-positive count.
- MiddleTeaching.MiddleTeacher.Learn: the parallel tester is modelled by the serial aggregation of its per-sample outcomes, in sample order. The hit-rate error sum it adds as written is a finding below.
- MiddleTeaching.MiddleTeacher.Learn: requires a rate, a positive batch size, row-vector samples and a non-empty testing set. Java throws or divides 0 by 0 in those cases.
- SimpleTeaching.SimpleTeacher.Learn: requires a rate, a positive batch size and a non-empty testing set. Java throws a null pointer for a missing rate, loops forever over batches of size 0 or less (see Findings), and divides 0 by 0 for an empty testing set.
- SimpleTeaching.SimpleTeacher.Learn: the teacher holds the rate's schedule as a value read at reset. Nothing during learning writes the rate object, so reading it once is the same as reading it per epoch.
- SimpleTeaching.SimpleTeacher.Learn: both testers keep `bestNet` as the live net, not a copy. The model keeps that aliasing, so the reported best net is the net at the end of training.
- SimpleTeaching.SimpleTeacher.GetProgress: requires `maxEpochsCount != 0` while testing continues. Java's double division gives NaN or infinity there, which reals do not have.
- MiddleTeaching.MiddleTeacher.GetProgress: the same `maxEpochsCount != 0` requirement, for the same reason.
- Testers.PerformTest: requires a non-empty sample set. Java divides 0 by 0 there, giving NaN.
- Samples.ServiceReport: requires a non-empty service. Java formats the NaN of 0 divided by 0 there.
- Samples.Take: states how many samples move and that the two lists together hold the original samples, but not which positions are removed. Step i removes position round(size − i·n/count) of the list that remains; the contract keeps only the bound on that index (`Samples.TakeIndexInRange`).
- Samples.ReadAll: requires a positive batch size. With batch size 0 or less the source's batch loop never ends, which `Samples.EmptyBatchesNeverEnd` states.
- Generators.RangeLogCount: requires a non-zero start. Java's `end / start` is then infinite or NaN, which reals do not have.
- Generators.RangeLog: requires `end < start` or a non-zero start. The `end < start` error comes before any division and is modelled. A zero start with a larger end divides by zero, which is not.
- Rates.LinearRate.Apply: takes a natural epoch. A negative epoch, including the division by zero at −1, is not modelled.
- Rates.ExponentRateStart: the positivity of `exp` is a requirement at the point used, since `exp` is a parameter.
- Activations.Activation: before any serialization, the source's activator and deactivator are lambdas that read the scale of the object that created them. The model names that object (`owner`) instead of storing code.
- Activations.Activation.Restored: in the source, `writeExternal` writes two lambdas `arg -> activator.apply(arg)` that capture the activation itself. `readExternal` stores them back as `activator` and `deactivator` of the restored object, which is that captured object. So a deserialized activation's functions call themselves until the stack overflows. The model does not capture this divergence. It gives a restored rectifier the working rectifier at scale 0.0 and any other class the functions `f`/`df` passed in. Everything that reads activations back inherits this: `Nets.RestoreActivations`, `Nets.Net.ReadExternal`, `Training.ReadBestNet` and `Experiments.ReadExperienceObjectList` yield activations that compute where Java's would not.
- Nets.Net.ReadExternal: the source stores a null weight, bias or activation read from the stream without complaint, and fails only when that slot is first used (`pass`, `getLayersSizes`). The model fails the whole read with `Err(NullPointer)` as soon as it meets a null slot. So a training or experiment result whose best net has a null slot reads in Java but fails here.
- Nets.ReadMatrixObject: refuses a null matrix slot with `Err(NullPointer)` at read time, for the reason given under `Nets.Net.ReadExternal`. `Nets.ReadMatrixOrNull` is the slot reader that keeps null.
- Nets.ReadActivationObject: refuses a null activation slot with `Err(NullPointer)` at read time, for the same reason. `Nets.ReadActivationOrNull` is the slot reader that keeps null.
- Nets.Net.WriteExternal: requires a valid net, whose matrices and activations agree in number. A net in another state is not written.
- Experiments.ExperimentResult.WriteExternal: requires every experience's best net to be ready for writing (`NetReady`).
- Experiments.ExperimentResult.ReadExternal: checks every token before it builds any object, where the source builds objects as it reads them. When reading fails partway, the model does not reproduce the objects already built.
- Training.TrainingResult.ReadExternal: for a read that fails partway, the model states only the error. It does not state which fields Java had already assigned.
- Experiments.ExperimentParametersFactory.SetActivations: the source passes `NetParameters::setActivations`, a setter `NetParameters` does not declare; it has one `activation` field. The model sweeps single activations through `setActivation`.
- Experiments.Experimenter.SetActivations: holds single activations, for the same reason.
- Experiments.ExperimentResult.Report: a training result's report is a parameter `resultReport`, because `TrainingResult.getReport` is not modelled.
- `TrainingResult.getReport` is not modelled. Its lines are the minimum, mean and maximum of the error lists formatted as doubles, and those statistics are not modelled. Its duration text is modelled (`Training.StringTime`).
- Text.ParseUnsignedInt: accepts ASCII digits only. Java also accepts other Unicode decimal digits.
- `List.of` rejecting null elements is not modelled: the lists built are of non-null values.
- Experiments.NetDefaults: a net configuration built by an activation-only sweep (`setActivations` on a factory with no configurations and no layer sizes) gets an empty size array here, where the source leaves `layerSizes` null. Three things then differ. `createNet` fails here with `IllegalArgument("activations")`, where Java throws a null pointer on `layerSizes.length`. `writeExternal` writes a size count of 0 here, where Java throws a null pointer. The report renders the sizes as `[]` here, where Java prints `layerSizes=null`.
- `Experiment.getProcessName` and the `experimenterName` field belong to the runnable experiment and its subclasses, which are not part of this model.

## Findings

| source | as written | input that shows it | evidently intended | confidence | as-written member | corrected member |
|---|---|---|---|---|---|---|
| SynapseCore/src/main/java/com/synapse/core/matrix/MatrixUtils.java:123-130 | `trans(a, b)` asks b for a's column count both as its columns and as its rows, so only a square target as wide as a passes | a 1×2 matrix a with a 2×1 target b, the shape of its transpose, fails with a column mismatch | b must have a's columns as rows and a's rows as columns, and it then holds the transpose of a | high, not executed | MatrixUtils.TransRejectsTransposeShape | MatrixUtils.Trans |
| SynapseCore/src/main/java/com/synapse/core/training/testers/ParallelTester.java:36-46 | the test error adds each sample's `getPercent()`, 1 for a hit and 0 otherwise, in place of its loss | any sample set: the error sum equals the number of hits, whatever the losses are | the error is the sum of the per-sample losses, as in the serial tester | high, not executed | Testers.ParallelErrorIsHitRate | Testers.ParallelMatchesSerial |
| SynapseCore/src/main/java/com/synapse/core/nets/Net.java:30-53 | `Net(weights, biases, activations)` demands one more activation than weight matrices, while `Net(layerSizes, activations)` builds one activation per weight matrix | layer sizes [2, 3] with one activation build a net whose parts the three-array constructor refuses | one activation per weight matrix in both constructors; `NetTest.java:15-17` contradicts this side, passing one activation per layer to the sizes constructor, as the three-array constructor's "number of layers" rule asks | low, not executed | Nets.ConstructorsDisagree | Nets.MatricesCheck |
| SynapseCore/src/main/java/com/synapse/core/nets/Net.java:92-106 | `clone` shares the original's activation array and stores the activation clones into it, so the original net changes | cloning any net with at least one layer replaces the original's activation objects | the clone gets its own array of cloned activations and the original is untouched | high, not executed | Nets.Net.CloneAsWritten | Nets.Net.Clone |
| SynapseCore/src/main/java/com/synapse/core/samples/ListSampleService.java:58-62 | the report prints part / total next to a percent sign | 8 training and 2 testing samples print a training share of 0.8% | 100 · part / total, so the two shares sum to 100 | medium, not executed | Samples.ShareIsFraction | Samples.PercentsSumTo100 |
| SynapseCore/src/main/java/com/synapse/core/training/TrainingResult.java:126-137 | the moving average sums a window of 51 values and divides by 50 | a constant list of 1.0 averages to 1.02 | divide by the 51 values summed, so a constant list averages to itself | high, not executed | Training.AverageOfConstant | Training.AverageIntendedOfConstant |
| SynapseCore/src/main/java/com/synapse/core/samples/SampleBatches.java:20-33 | a batch size of 0 or less never advances the shared source, so `hasNext` stays true | one sample and batch size 0: every batch is empty and the iteration never ends | batches of a positive size, which end once they cover the samples | medium, not executed | Samples.EmptyBatchesNeverEnd | Samples.BatchesEnd |
| SynapseDesktop/src/main/java/com/synapse/desktop/io/Extension.java:30-32 | the file filter's pattern is "*.ext" taken literally as a suffix, so a name matches only when it ends with an asterisk before the dot | "data.sample" is refused by the sample filter | accept every name ending with a dot and the extension name | high, not executed | Extensions.AcceptsOnlyAsterisk | Extensions.AcceptsExtensionOfNamed |
| SynapseData/src/main/java/com/synapse/data/dataset/Cifar10.java:64-90 | the planar-to-interleaved copy writes positions i, i + 1 and i + 2 for each i, so later writes overwrite earlier ones | any full record: the source holds the red plane, then the last green byte and the last blue byte, then zeros | pixel k takes its red, green and blue bytes from k, k + 1024 and k + 2048 | high, not executed | Datasets.FullRecord | Datasets.InterleavedPixel |
