# Tetrahedron and Stroud 1957 n-cube quadrature tables, in Dafny

This project models two families of quadrature rules and proves properties of them.

**Tetrahedron rules** (`quadrature/tetrahedron.py`):
- The orbit generators `_s4`, `_s31`, `_s22`, `_s211` and `_s1111`, and the `_r*` helpers of two scheme classes. Each expands one to three scalars into a symmetric set of barycentric 4-tuples.
- The seven tabulated scheme classes. Each maps an index to weights, points and a degree, and raises `ValueError` for an unknown index.
- Silvester's Newton-Cotes construction `_newton_cotes`, with its closed and open node functions.
- The integrator `integrate`, which carries a scheme from the reference tetrahedron to any tetrahedron.

**n-cube rules** (`quadpy/ncube/_stroud_1957.py`): `stroud_1957_2` and `stroud_1957_3` from Stroud's 1957 paper.

How the model represents them:
- All numbers are Dafny `real`. Sums are exact.
- `sqrt`, `cos`, `sin`, `arccos` and `pi` come in as function values of a `Numerics` record and stay uninterpreted.
- Division by a computed quantity goes through `Basics.FloatDiv`.
- Code that builds values from expressions is written as functions, proved by lemmas.
- Code that fills or rescales an array in place is written as a method over an `array`, proved against a specification function:
  - the triple loop of `_newton_cotes` that writes one weight per lattice index;
  - the in-place `sqrt3pm[1::2] *= -1`;
  - `weights *= reference_volume`.

Files:
- `basics.dfy`: results and errors, `Numerics`, sums, constant vectors.
- `simplex.dfy`: barycentric rows, schemes on the tetrahedron, dropping and restoring the first coordinate.
- `orbits.dfy`: the orbit generators and their orbit lemmas.
- `tet_schemes.dfy`: the seven scheme classes and their weight sums.
- `polynomials.dfy`: dense univariate polynomials, which stand in for the `sympy` polynomials `_newton_cotes` builds.
- `newton_cotes.dfy`: `_newton_cotes`, NewtonCotesClosed and NewtonCotesOpen.
- `integrate.dfy`: `integrate`.
- `ncube_stroud.dfy`: `stroud_1957_2` and `stroud_1957_3`.

## Model

| member | source | states |
|---|---|---|
| Basics.Sum | quadrature/tetrahedron.py:76 | defined by recursion as the exact sum standing for `math.fsum` and `numpy.sum`; no contract of its own: `Basics.SumAppend` and `Basics.SumOnes` state its properties |
| Basics.SumAppend | quadrature/tetrahedron.py:76 | the sum of a concatenation is the sum of the two sums |
| Basics.Ones | quadrature/tetrahedron.py:190-191 | `w * numpy.ones(n)`: exactly n entries, every one equal to w |
| Basics.SumOnes | quadrature/tetrahedron.py:190-191 | n copies of w sum to n·w |
| Orbits.S4 | quadrature/tetrahedron.py:79-82 | one row, the centroid; it sums to 1 and is the whole orbit of (1/4, 1/4, 1/4, 1/4) |
| Orbits.S31 | quadrature/tetrahedron.py:85-92 | 4 rows, each summing to 1 for every real a, each a rearrangement of (a, a, a, 1-3a) |
| Orbits.S22 | quadrature/tetrahedron.py:95-104 | 6 rows, each summing to 1 for every a, each a rearrangement of (a, a, 1/2-a, 1/2-a) |
| Orbits.S211 | quadrature/tetrahedron.py:107-122 | 12 rows, each summing to 1, each a rearrangement of (a, a, b, 1-2a-b) |
| Orbits.S1111 | quadrature/tetrahedron.py:125-152 | 24 rows, each summing to 1, each a rearrangement of (a, b, c, 1-a-b-c) |
| Orbits.HammerMarloweStroudR | quadrature/tetrahedron.py:213-224 | `_r(r)`: 4 rows summing to 1, each a rearrangement of (a, b, b, b) with a = r + (1-r)/4 and b = (1-a)/3 |
| Orbits.RAlpha | quadrature/tetrahedron.py:745-760 | `_r_alpha`: 4 rows summing to 1, rearrangements of ((1+3α)/4, (1-α)/4 three times) |
| Orbits.RBeta | quadrature/tetrahedron.py:762-780 | `_r_beta`: 6 rows summing to 1, rearrangements of ((1+2β)/4 twice, (1-2β)/4 twice) |
| Orbits.RGammaDelta | quadrature/tetrahedron.py:782-807 | `_r_gamma_delta`: 12 rows summing to 1, rearrangements of the pattern with two (1-γ-δ)/4 entries |
| Orbits.RearrangesIsPermutation | quadrature/tetrahedron.py:79-152 | a row "rearranges" a pattern exactly when the two have the same multiset of coordinates |
| Orbits.S31Orbit | quadrature/tetrahedron.py:85-92 | for a ≠ 1/4 the 4 rows are pairwise distinct and every rearrangement of the pattern is among them |
| Orbits.S22Orbit | quadrature/tetrahedron.py:95-104 | for a ≠ 1/4 the 6 rows are exactly all distinct rearrangements of the pattern |
| Orbits.S211Orbit | quadrature/tetrahedron.py:107-122 | for a, b, 1-2a-b distinct, the 12 rows are exactly all distinct rearrangements |
| Orbits.OneOneOneOneCovers | quadrature/tetrahedron.py:127-152 | for pairwise distinct a, b, c, d, every permutation of (a, b, c, d) appears in the 24 rows |
| Orbits.S1111Orbit | quadrature/tetrahedron.py:125-152 | for pairwise distinct a, b, c, 1-a-b-c, the 24 rows are all 24 permutations, without repeats |
| Orbits.HammerMarloweStroudROrbit | quadrature/tetrahedron.py:213-224 | for r ≠ 0 the 4 rows are exactly the distinct rearrangements of (a, b, b, b) |
| Orbits.RAlphaOrbit | quadrature/tetrahedron.py:745-760 | for α ≠ 0 the 4 rows are the whole orbit, without repeats |
| Orbits.RBetaOrbit | quadrature/tetrahedron.py:762-780 | for β ≠ 0 the 6 rows are the whole orbit, without repeats |
| Orbits.RGammaDeltaOrbit | quadrature/tetrahedron.py:782-807 | for γ, δ nonzero and distinct the 12 rows are the whole orbit, without repeats |
| Simplex.LiftDropFirst | quadrature/tetrahedron.py:210 | dropping the first barycentric coordinate loses nothing: it is 1 minus the other three |
| Simplex.DropFirstColumn | quadrature/tetrahedron.py:210 | `bary[:, 1:]`: one point per row, and each point restores to its row |
| TetrahedronSchemes.OrbitRows | quadrature/tetrahedron.py:79-224 | each orbit call yields its fixed number of rows (1, 4, 6, 12 or 24), all summing to 1 |
| TetrahedronSchemes.Bary | quadrature/tetrahedron.py:193-195 | `numpy.concatenate` of the orbits: every concatenated row sums to 1 |
| TetrahedronSchemes.Weights | quadrature/tetrahedron.py:197-206 | the concatenated weights have one entry per concatenated barycentric row when every part matches its orbit |
| TetrahedronSchemes.SumWeights | quadrature/tetrahedron.py:197-206 | the concatenated weights sum to the total of the parts `w * ones(k)` |
| TetrahedronSchemes.Build | quadrature/tetrahedron.py:210 | the scheme holds the weights and degree of the branch and one point per row, each its row with the first coordinate dropped; a matched branch gives `len(weights) == len(points)` |
| TetrahedronSchemes.HammerMarloweStroud | quadrature/tetrahedron.py:180-211 | indices 1 to 3 succeed with matched parts; any other index is ValueError('Illegal Hammer-Marlowe-Stroud index') |
| TetrahedronSchemes.Yu | quadrature/tetrahedron.py:312-366 | indices 1 to 5 succeed with matched parts; any other index is ValueError('Illegal closed Yu index') |
| TetrahedronSchemes.Keast | quadrature/tetrahedron.py:386-536 | indices 0 to 10 succeed with matched parts; any other index is ValueError('Illegal Keast index') |
| TetrahedronSchemes.LiuVinokur | quadrature/tetrahedron.py:549-743 | indices 1 to 14 succeed with matched parts; any other index is ValueError('Illegal Liu-Vinokur index') |
| TetrahedronSchemes.Zienkiewicz | quadrature/tetrahedron.py:820-838 | indices 4 and 5 succeed with matched parts; any other index is ValueError('Illegal closed Newton-Cotes index') |
| TetrahedronSchemes.ZhangCuiLiu | quadrature/tetrahedron.py:858-966 | indices 1 and 2 succeed with matched parts; any other index is ValueError('Illegal Zhang index') |
| TetrahedronSchemes.ShunnHam | quadrature/tetrahedron.py:989-1059 | indices 1 to 6 succeed with matched parts; any other index is ValueError('Illegal Shunn-Ham index') |
| TetrahedronSchemes.BuildWeightSum | quadrature/tetrahedron.py:197-210 | the weights a scheme ends up with sum to the total of its weight parts |
| TetrahedronSchemes.HammerMarloweStroudWeights | quadrature/tetrahedron.py:181-206 | for every accepted index the weights sum to exactly 1 |
| TetrahedronSchemes.YuWeights | quadrature/tetrahedron.py:313-362 | indices 1 and 2 sum to exactly 1; indices 3 to 5 are within 1e-14 of 1 |
| TetrahedronSchemes.KeastWeights | quadrature/tetrahedron.py:387-458 | indices 0, 1, 2, 4 and 6, whose weights are fractions, sum to exactly 1 |
| TetrahedronSchemes.KeastDecimalWeights | quadrature/tetrahedron.py:410-490 | indices 3, 5, 7 and 8 are within 1e-14 of 1 |
| TetrahedronSchemes.KeastLongDecimalWeights | quadrature/tetrahedron.py:491-532 | indices 9 and 10 are within 1e-14 of 1 |
| TetrahedronSchemes.LiuVinokurWeights | quadrature/tetrahedron.py:550-738 | indices 1 to 6, 9 and 14 sum to exactly 1 |
| TetrahedronSchemes.LiuVinokurSurdWeights | quadrature/tetrahedron.py:604-722 | indices 7, 10, 11 and 13 sum to exactly 1, whatever the value of the square roots in their weights |
| TetrahedronSchemes.ZienkiewiczWeights | quadrature/tetrahedron.py:821-834 | both indices sum to exactly 1 |
| TetrahedronSchemes.ZhangCuiLiuWeights | quadrature/tetrahedron.py:859-962 | indices 1 and 2 are within 1e-14 of 1 |
| TetrahedronSchemes.ZhangCuiLiuLongWeights | quadrature/tetrahedron.py:885-962 | the sixteen parts of index 2 total 1 + 1.6e-33, within 1e-14 of 1 |
| TetrahedronSchemes.ShunnHamWeights | quadrature/tetrahedron.py:990-999 | indices 1 and 2 sum to exactly 1 |
| TetrahedronSchemes.ShunnHamDecimalWeights | quadrature/tetrahedron.py:1000-1055 | indices 3 to 6 are within 1e-14 of 1 |
| NewtonCotes.Node | quadrature/tetrahedron.py:285-296 | `point_fun` of one k: k/n for the closed rule, (k+1)/(n+4) for the open one; no contract of its own: `NewtonCotes.NodeRange` and `NewtonCotes.NodeIncreasing` state its properties |
| NewtonCotes.NodeRange | quadrature/tetrahedron.py:285-296 | closed nodes lie in [0, 1], are 0 exactly at k = 0 and 1 exactly at k = n; open nodes of k ≤ n lie strictly inside (0, 1) |
| NewtonCotes.NodeIncreasing | quadrature/tetrahedron.py:285-296 | both node functions are strictly increasing in k |
| NewtonCotes.Lattice | quadrature/tetrahedron.py:239-244 | the comprehension over i, then j, then k; no contract of its own: `NewtonCotes.LatticeMembers`, `NewtonCotes.LatticeSorted` and `NewtonCotes.LatticeLength` state its properties |
| NewtonCotes.LatticeMembers | quadrature/tetrahedron.py:239-244 | an index is in the lattice exactly when its four entries sum to n |
| NewtonCotes.LatticeSorted | quadrature/tetrahedron.py:239-244 | the lattice is listed in strictly increasing lexicographic order, so it has no repeats |
| NewtonCotes.LatticeLength | quadrature/tetrahedron.py:239-244 | the lattice has (n+1)(n+2)(n+3)/6 indices |
| NewtonCotes.NodeRow | quadrature/tetrahedron.py:285-296 | `point_fun` of an index on the lattice is a row summing to 1, for the closed rule (n ≥ 1) and for the open rule |
| NewtonCotes.Bary | quadrature/tetrahedron.py:245 | one barycentric row per lattice index, in lattice order, each summing to 1 |
| NewtonCotes.Points | quadrature/tetrahedron.py:246 | one point per lattice index, each the row of that index with the first coordinate dropped |
| NewtonCotes.GetPoly | quadrature/tetrahedron.py:253-259 | `get_poly(t, m, n)` has m + 1 coefficients, a polynomial of degree m; its values are stated by `NewtonCotes.GetPolyValues` |
| NewtonCotes.FactorsAtOwnNode | quadrature/tetrahedron.py:253-259 | the product of Lagrange factors for node m is 1 at node m |
| NewtonCotes.FactorsVanish | quadrature/tetrahedron.py:253-259 | the product of Lagrange factors for node m is 0 at every node k < m |
| NewtonCotes.GetPolyValues | quadrature/tetrahedron.py:253-259 | `get_poly(t, m, n)` is the empty product 1 when m = 0, is 1 at node m and is 0 at every node k < m |
| NewtonCotes.FactorAtNode | quadrature/tetrahedron.py:253-259 | `get_poly(t, m, n)` evaluated at node k is 1 when k = m and 0 when k < m |
| Polynomials.PowerSumEval | quadrature/tetrahedron.py:270-279 | the monomial form, the sum of p[e]·t^e over e, equals the polynomial's value at t, for every coefficient list |
| NewtonCotes.Expand | quadrature/tetrahedron.py:270-279 | `g.monoms()` and `g.coeffs()` of the product of the factors; no contract of its own: `NewtonCotes.ExpandEval` and `NewtonCotes.ExpandProduct` state what the terms stand for |
| NewtonCotes.ExpandEval | quadrature/tetrahedron.py:265-279 | the monomials of the remaining factors, started from exponents `exps` and coefficient `coef`, evaluate at every point to coef · (monomial of exps) · (product of the remaining factors at their own coordinates) |
| NewtonCotes.ExpandProduct | quadrature/tetrahedron.py:265-279 | the monomials of g, with their coefficients, evaluate at every point t to the product of the factors, factor q taken at t[q] |
| NewtonCotes.ProductAtFour | quadrature/tetrahedron.py:265-268 | for four factors, that product is get_poly(t0) · get_poly(t1) · get_poly(t2) · get_poly(t3) |
| NewtonCotes.LagrangeProperty | quadrature/tetrahedron.py:262-273 | for every n and both rules, the polynomial g of lattice index x is 1 at the node row of x and 0 at the node row of every other lattice index |
| NewtonCotes.MonomialIntegral | quadrature/tetrahedron.py:276-278 | Silvester's integral `prod(m!) · 6 / (sum(m) + 3)!` of a monomial is positive |
| NewtonCotes.Weight | quadrature/tetrahedron.py:262-280 | the sum over the monomials of g of coefficient times `MonomialIntegral`; no contract of its own: `NewtonCotes.LagrangeProperty` states what g is and `NewtonCotes.UnitIndexWeight` gives its value at n = 1 |
| NewtonCotes.Weights | quadrature/tetrahedron.py:249-281 | `numpy.ones(1)` for n = 0, else the weight of each lattice index in lattice order; no contract of its own: `NewtonCotes.WeightsMatchLattice` and `NewtonCotes.DegreeOneWeights` state its properties |
| NewtonCotes.WeightsMatchLattice | quadrature/tetrahedron.py:260-281 | there is one weight per point, and for n ≥ 1 the q-th weight is the weight of the q-th lattice index |
| NewtonCotes.LatticeAt | quadrature/tetrahedron.py:261-281 | the running counter of the triple loop, at (i, j, k), is the position of (i, j, k, n-i-j-k) in the lattice |
| NewtonCotes.FillWeights | quadrature/tetrahedron.py:260-281 | the triple loop writes, at each position, the weight of the lattice index at that position |
| NewtonCotes.NewtonCotesScheme | quadrature/tetrahedron.py:227-282 | the lattice points, one weight per lattice index (the single weight 1 when n = 0), and degree n |
| NewtonCotes.NewtonCotesClosed | quadrature/tetrahedron.py:285-289 | the closed rule for n ≥ 1, with its points, weights and degree n; n = 0 is an error (see Findings) |
| NewtonCotes.NewtonCotesOpen | quadrature/tetrahedron.py:292-296 | the open rule for every n ≥ 0, with its points, weights and degree n |
| NewtonCotes.ClosedNodeAsWritten | quadrature/tetrahedron.py:288 | `k / float(n)` is undefined exactly when n = 0, and is otherwise the quotient k/n |
| NewtonCotes.ClosedDegreeZeroAsWritten | quadrature/tetrahedron.py:245-251 | at n = 0 the lattice is the single index 0,0,0,0, its closed node is undefined, and the weight list `numpy.ones(1)` (`NewtonCotes.DegreeZeroWeights`) is [1] |
| NewtonCotes.UnitIndexWeight | quadrature/tetrahedron.py:262-280 | at n = 1 the Silvester weight of each vertex index is 1/4 |
| NewtonCotes.DegreeOneWeights | quadrature/tetrahedron.py:239-281 | at n = 1 the lattice is the four vertex indices, and both rules give the weights [1/4, 1/4, 1/4, 1/4] |
| Polynomials.EvalMulLinear | quadrature/tetrahedron.py:254-258 | multiplying a polynomial by the linear factor c0 + c1 t multiplies its value at every t by that factor |
| NewtonCotes.ExpandOneLinear | quadrature/tetrahedron.py:270-279 | the monomials of a product of constant factors and one linear factor are the constant term and one degree-one term |
| Integration.MapPoint | quadrature/tetrahedron.py:54-59 | the affine map `x` of one reference point; no contract of its own: `Integration.MapVertices` and `Integration.MapPointBarycentric` state its properties |
| Integration.MapVertices | quadrature/tetrahedron.py:54-59 | the affine map sends the reference vertices 0, e1, e2, e3 to `tetrahedron[0..3]` |
| Integration.MapPointBarycentric | quadrature/tetrahedron.py:54-59 | a reference point is sent to the combination of the vertices weighted by its barycentric row |
| Integration.Det3 | quadrature/tetrahedron.py:71-72 | the six-term determinant of J0, J1, J2; no contract of its own: `Integration.SwapEdgeColumns` states that it is alternating |
| Integration.SwapEdgeColumns | quadrature/tetrahedron.py:71-72 | exchanging any two of the three columns negates the determinant |
| Integration.SignedVolume | quadrature/tetrahedron.py:61-74 | `det`, the determinant of the edge vectors times 1/6; no contract of its own: `Integration.ReferenceVolume` and `Integration.SwapNegatesVolume` state its properties |
| Integration.ReferenceVolume | quadrature/tetrahedron.py:61-74 | `det` is 1/6 on the reference tetrahedron |
| Integration.SwapNegatesVolume | quadrature/tetrahedron.py:61-74 | exchanging any two vertices negates `det` |
| Integration.SwapKeepsVolumeFactor | quadrature/tetrahedron.py:76 | exchanging any two vertices leaves `abs(det)` unchanged |
| Integration.Values | quadrature/tetrahedron.py:54-59 | one integrand value per scheme point, each f at the mapped point |
| Integration.Terms | quadrature/tetrahedron.py:76 | `weights * values * scale`: one term per weight, the q-th being weights[q] · values[q] · scale |
| Integration.Integrate | quadrature/tetrahedron.py:53-76 | the exact sum of those terms with scale `abs(det)`; no contract of its own: `Integration.IntegrateConstant` and `Integration.IntegrateAdd` state its properties |
| Integration.IntegrateConstant | quadrature/tetrahedron.py:76 | a constant integrand c yields c · abs(det) · (sum of the weights), which is c · abs(det) when the weights sum to 1 |
| Integration.IntegrateAdd | quadrature/tetrahedron.py:76 | the result is additive in the integrand |
| NCubeStroud1957.Untangle | quadpy/ncube/_stroud_1957.py:35 | `untangle` of groups with scalar weights gives one weight per point; `NCubeStroud1957.UntangleThree` states the content for three groups |
| NCubeStroud1957.Pow2 | quadpy/ncube/_stroud_1957.py:36 | `2 ** n` is at least 1 |
| NCubeStroud1957.UntangleThree | quadpy/ncube/_stroud_1957.py:35 | `untangle` of three groups: their points in order, and each group's weight repeated once per point |
| NCubeStroud1957.HalfDim | quadpy/ncube/_stroud_1957.py:48 | `n2` is floor(n/2) in both parity branches |
| NCubeStroud1957.SumScaledBy | quadpy/ncube/_stroud_1957.py:67 | scaling the weights multiplies their sum by the same factor |
| NCubeStroud1957.Rescale | quadpy/ncube/_stroud_1957.py:37 | `weights *= reference_volume` in place: every entry is multiplied by the factor |
| NCubeStroud1957.ScaledWeights | quadpy/ncube/_stroud_1957.py:66-67 | the rescaled weights are the input scaled by 2^n, and their sum is the input's sum times 2^n |
| NCubeStroud1957.Alternating | quadpy/ncube/_stroud_1957.py:58-59 | a sequence of the given length; `NCubeStroud1957.NegateOdd` and `NCubeStroud1957.PlusMinusColumn` state that it is what the in-place negation produces |
| NCubeStroud1957.NegateOdd | quadpy/ncube/_stroud_1957.py:59 | `[1::2] *= -1` negates the odd positions and keeps the even ones |
| NCubeStroud1957.PlusMinusColumn | quadpy/ncube/_stroud_1957.py:58-59 | the column is +v at even positions and -v at odd positions, of length 2n |
| NCubeStroud1957.PlaneRows | quadpy/ncube/_stroud_1957.py:50-56 | 2·n2 rows of 2n entries: a cosine row and a sine row per plane k |
| NCubeStroud1957.Rows | quadpy/ncube/_stroud_1957.py:50-60 | `numpy.vstack(pts)`: every stacked row has 2n entries, one per point |
| NCubeStroud1957.Transpose | quadpy/ncube/_stroud_1957.py:61 | `.T` swaps row and column indices |
| NCubeStroud1957.Stroud3Points | quadpy/ncube/_stroud_1957.py:49-61 | the transposed rows; no contract of its own: `NCubeStroud1957.Stroud3Shape`, `NCubeStroud1957.Stroud3Coordinates` and `NCubeStroud1957.Stroud3LastCoordinate` state its shape and entries |
| NCubeStroud1957.Stroud3Shape | quadpy/ncube/_stroud_1957.py:49-61 | exactly 2n points, each with n coordinates |
| NCubeStroud1957.Stroud3Coordinates | quadpy/ncube/_stroud_1957.py:50-56 | coordinate 2k-2 of point i+1 is sqrt(2/3)·cos((2k-1)(i+1)π/n), and coordinate 2k-1 is the same with sin |
| NCubeStroud1957.Stroud3LastCoordinate | quadpy/ncube/_stroud_1957.py:57-61 | for odd n the last coordinate of point i is +1/√3 at even i and -1/√3 at odd i |
| NCubeStroud1957.Stroud3Weights | quadpy/ncube/_stroud_1957.py:63-67 | 2n weights 1/(2n) scaled by 2^n are all 2^n/(2n), and they sum to 2^n |
| NCubeStroud1957.Stroud1957_3 | quadpy/ncube/_stroud_1957.py:41-68 | for n ≥ 1: name, dimension n, degree 3, the 2n points, every weight 2^n/(2n), weights summing to 2^n; n ≤ 0 raises ValueError |
| NCubeStroud1957.Stroud2Untangle | quadpy/ncube/_stroud_1957.py:29-35 | untangling the three groups gives the centre point, the `_s(n,-1,r)` points, then the `_s(n,+1,r)` points, with weights 1, +r and -r |
| NCubeStroud1957.Stroud2Weights | quadpy/ncube/_stroud_1957.py:36-37 | scaling those weights by 2^n gives 2^n, then +r·2^n per point of the first orbit and -r·2^n per point of the second |
| NCubeStroud1957.Stroud2Sum | quadpy/ncube/_stroud_1957.py:29-37 | two orbits of equal size with weights of opposite sign cancel, so the weights sum to the centre weight |
| NCubeStroud1957.Stroud1957_2 | quadpy/ncube/_stroud_1957.py:25-38 | for n ≥ 0: name, dimension n, degree 2; the first point is 2r in every coordinate with weight 2^n, r = √3/6; the `_s(n,-1,r)` points have weight +r·2^n and the `_s(n,+1,r)` points -r·2^n; the weights sum to 2^n when the two orbits have equal size; n < 0 raises ValueError |

## Left out

- Plotting (`show`, `quadrature/tetrahedron.py:10-50`) is not modelled: it only draws.
- Floating point is not modelled; all arithmetic is exact over the reals.
  - `math.fsum` is an exact sum here.
  - `integrate`'s result is an exact real sum.
- Basics.FloatDiv: a float division by zero gives inf or NaN. Here it gives 0. It is used only where the divisor is a square root or a closed form that the source never makes zero.
- `sympy` is not part of this model. Symbolic polynomials become dense coefficient sequences. `monoms`/`coeffs` become an expansion into (exponents, coefficient) terms that keeps zero coefficients, which add nothing to the sum. The `symbolic` switch of the n-cube file is one real-valued path.
- `numpy.sqrt`, `cos`, `sin`, `arccos` and `pi` are uninterpreted `Numerics` fields. Facts that depend on their values are not proved, for example that sqrt(3)/6 is positive or that a point lies in the cube.
- Degree of exactness is not proved for any scheme: the stated `degree` is carried as data. Proving it means integrating monomials with the published constants.
- NewtonCotes.Weights: the weights are specified for every n through the Silvester formula, and the Lagrange property of each g is proved for every n (`NewtonCotes.LagrangeProperty`). That the weights sum to 1 is proved only for n = 0 and n = 1 (`NewtonCotes.DegreeOneWeights`): the general case needs the sum of the g over the lattice to be the constant 1 and `MonomialIntegral` to be exact on the reference tetrahedron, neither of which is modelled.
- NewtonCotes.GetPoly is defined for every m, including m > n, which the source never asks for.
- TetrahedronSchemes.LiuVinokurWeights: indices 8 and 12 use closed forms through sqrt, cos and arccos. Their weight sums are not proved.
- TetrahedronSchemes.YuWeights, TetrahedronSchemes.KeastDecimalWeights, TetrahedronSchemes.KeastLongDecimalWeights, TetrahedronSchemes.ShunnHamDecimalWeights: these tables are printed decimals. Their sums are proved to be within 1e-14 of 1, not equal to 1.
- TetrahedronSchemes.Keast: index 10 multiplies the concatenated weights by 6. The model multiplies each weight part by 6, which gives the same reals.
- `_s` of the n-cube helpers is not part of this model. It is a function parameter of `NCubeStroud1957.Stroud1957_2`.
- NCubeStroud1957.Stroud1957_2: the weight sum 2^n is stated only when `_s(n,-1,r)` and `_s(n,+1,r)` have the same number of points, because `_s` is a parameter.
- `untangle` is not part of this model. `NCubeStroud1957.Untangle` covers only what the two rules use: groups with one scalar weight each.
- `NCubeScheme` is not part of this model. It becomes a record of the name, dimension, weights, points and degree.
- The `_citation` metadata and the docstring references are not modelled.
- Integration.Integrate takes a scalar integrand `f`. A vector-valued `f` (whose `.T` the source transposes) is not modelled.

## Findings

| source | as written | input that shows it | evidently intended | confidence | as-written member | corrected member |
|---|---|---|---|---|---|---|
| quadrature/tetrahedron.py:285-289 | The closed rule's node `k / float(n)` divides by n, and `_newton_cotes` evaluates it on the lattice before the `n == 0` early return. At n = 0 the single point is 0/0 in every coordinate, which is NaN under numpy, yet it is returned with weight 1. | NewtonCotesClosed(0) | A closed Newton-Cotes rule needs n ≥ 1. n = 0 should be refused rather than yield a NaN point. | medium; not executed | NewtonCotes.ClosedDegreeZeroAsWritten | NewtonCotes.NewtonCotesClosed |
