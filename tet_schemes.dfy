/** The tabulated tetrahedron schemes of quadrature/tetrahedron.py. Each
    scheme class is a lookup from an index to one branch, which hands a list of
    weight parts `w * numpy.ones(k)` and a list of orbits to `numpy.concatenate`
    and sets a degree; an unknown index raises ValueError. A branch is kept as
    data: the k-th weight part together with the k-th orbit call. Decimal
    constants are carried as the exact decimal reals they spell. */
module TetrahedronSchemes {
  import opened Basics
  import opened Simplex
  import Orbits

  /** An orbit helper call of a branch, with its arguments. */
  datatype Orbit =
    | S4
    | S31(a: real)
    | S22(a: real)
    | S211(a: real, b: real)
    | S1111(a: real, b: real, c: real)
    | HmsR(r: real)
    | RAlpha(alpha: real)
    | RBeta(beta: real)
    | RGammaDelta(gamma: real, delta: real)

  /** The number of points the helper returns. */
  function OrbitSize(o: Orbit): nat
  {
    match o
    case S4 => 1
    case S31(_) => 4
    case S22(_) => 6
    case S211(_, _) => 12
    case S1111(_, _, _) => 24
    case HmsR(_) => 4
    case RAlpha(_) => 4
    case RBeta(_) => 6
    case RGammaDelta(_, _) => 12
  }

  /** The barycentric rows the helper returns. */
  function OrbitRows(o: Orbit): (rows: seq<seq<real>>)
    ensures |rows| == OrbitSize(o) && AllBary(rows)
  {
    match o
    case S4 => Orbits.S4()
    case S31(a) => Orbits.S31(a)
    case S22(a) => Orbits.S22(a)
    case S211(a, b) => Orbits.S211(a, b)
    case S1111(a, b, c) => Orbits.S1111(a, b, c)
    case HmsR(r) => Orbits.HammerMarloweStroudR(r)
    case RAlpha(alpha) => Orbits.RAlpha(alpha)
    case RBeta(beta) => Orbits.RBeta(beta)
    case RGammaDelta(gamma, delta) => Orbits.RGammaDelta(gamma, delta)
  }

  /** `weight * numpy.ones(count)` in the weights list, beside `orbit` at the
      same position in the bary list. */
  datatype Part = Part(weight: real, count: nat, orbit: Orbit)

  /** One index branch: its parts and `self.degree`. */
  datatype Tables = Tables(parts: seq<Part>, degree: nat)

  /** Every weight part is exactly as long as the orbit beside it. */
  predicate Matched(parts: seq<Part>)
  {
    forall k :: 0 <= k < |parts| ==> parts[k].count == OrbitSize(parts[k].orbit)
  }

  /** `bary = numpy.concatenate([...])`: the orbits one after the other. */
  function Bary(parts: seq<Part>): (rows: seq<seq<real>>)
    ensures AllBary(rows)
  {
    if parts == [] then []
    else
      AllBaryAppend(OrbitRows(parts[0].orbit), Bary(parts[1..]));
      OrbitRows(parts[0].orbit) + Bary(parts[1..])
  }

  /** `self.weights = numpy.concatenate([...])`. When every part is matched,
      there is one weight per row of `Bary`. */
  function Weights(parts: seq<Part>): (w: seq<real>)
    ensures Matched(parts) ==> |w| == |Bary(parts)|
  {
    if parts == [] then []
    else
      assert Matched(parts) ==> Matched(parts[1..]);
      Ones(parts[0].count, parts[0].weight) + Weights(parts[1..])
  }

  /** The sum of one weight part, `weight * numpy.ones(count)`. */
  function PartTotal(p: Part): real
  {
    p.count as real * p.weight
  }

  /** The sum of all weight parts. */
  function PartsTotal(parts: seq<Part>): real
  {
    if parts == [] then 0.0 else PartTotal(parts[0]) + PartsTotal(parts[1..])
  }

  lemma PartsTotalThree(parts: seq<Part>)
    requires |parts| == 3
    ensures PartsTotal(parts) == PartTotal(parts[0]) + PartTotal(parts[1]) + PartTotal(parts[2])
  {
    assert parts[1..][1..][1..] == [];
    assert PartsTotal(parts[1..][1..]) == PartTotal(parts[2]);
  }

  lemma PartsTotalFour(parts: seq<Part>)
    requires |parts| == 4
    ensures PartsTotal(parts) == PartTotal(parts[0]) + PartTotal(parts[1]) + PartTotal(parts[2]) + PartTotal(parts[3])
  {
    PartsTotalThree(parts[1..]);
  }

  lemma PartSum(p: Part)
    ensures Sum(Ones(p.count, p.weight)) == PartTotal(p)
  {
    SumOnes(p.count, p.weight);
  }

  lemma {:induction false} SumWeights(parts: seq<Part>)
    ensures Sum(Weights(parts)) == PartsTotal(parts)
  {
    if parts != [] {
      var first := Ones(parts[0].count, parts[0].weight);
      assert Weights(parts) == first + Weights(parts[1..]);
      PartSum(parts[0]);
      SumAppend(first, Weights(parts[1..]));
      SumWeights(parts[1..]);
    }
  }

  /** The fields the constructor sets: `self.weights`, `self.points =
      bary[:, 1:]` and `self.degree`. Each point is its barycentric row with
      the first coordinate dropped, which is recovered as 1 - x - y - z, and a
      matched branch gives one weight per point. */
  function Build(t: Tables): (s: TetScheme)
    ensures s.weights == Weights(t.parts) && s.degree == t.degree
    ensures |s.points| == |Bary(t.parts)|
    ensures forall i :: 0 <= i < |s.points| ==> Lift(s.points[i]) == Bary(t.parts)[i]
    ensures Matched(t.parts) ==> WellFormed(s)
  {
    TetScheme(Weights(t.parts), DropFirstColumn(Bary(t.parts)), t.degree)
  }

  /** Hammer, Marlowe and Stroud (1956): the orbit `_r(r)` at r = +-1/sqrt(5),
      and a degree-3 rule with a negative centroid weight. */
  function HammerMarloweStroud(nm: Numerics, index: int): (r: Result<Tables>)
    ensures r.Ok? <==> 1 <= index <= 3
    ensures r.Err? ==> r.error == ValueError("Illegal Hammer-Marlowe-Stroud index")
    ensures r.Ok? ==> Matched(r.value.parts)
  {
    if index == 1 then
      Ok(Tables([Part(0.25, 4, HmsR(FloatDiv(1.0, nm.sqrt(5.0))))], 2))
    else if index == 2 then
      Ok(Tables([Part(0.25, 4, HmsR(FloatDiv(-1.0, nm.sqrt(5.0))))], 2))
    else if index == 3 then
      Ok(Tables(
        [Part(-0.8, 1, S4),
         Part(9.0 / 20.0, 4, HmsR(1.0 / 3.0))],
        3))
    else
      Err(ValueError("Illegal Hammer-Marlowe-Stroud index"))
  }

  /** Yu Jinyun (1984): five symmetric Gaussian rules of degrees 2 to 6. */
  function Yu(index: int): (r: Result<Tables>)
    ensures r.Ok? <==> 1 <= index <= 5
    ensures r.Err? ==> r.error == ValueError("Illegal closed Yu index")
    ensures r.Ok? ==> Matched(r.value.parts)
  {
    if index == 1 then
      Ok(Tables([Part(0.25, 4, S31(0.138196601125015))], 2))
    else if index == 2 then
      Ok(Tables(
        [Part(-0.8, 1, S4),
         Part(0.45, 4, S31(1.0 / 6.0))],
        3))
    else if index == 3 then
      Ok(Tables(
        [Part(0.05037379410012282, 4, S31(0.07611903264425430)),
         Part(0.06654206863329239, 12, S211(0.4042339134672644, 0.1197005277978019))],
        4))
    else if index == 4 then
      Ok(Tables(
        [Part(0.1884185567365411, 1, S4),
         Part(0.06703858372604275, 4, S31(0.08945436401412733)),
         Part(0.04528559236327399, 12, S211(0.4214394310662522, 0.1325810999384657))],
        5))
    else if index == 5 then
      Ok(Tables(
        [Part(0.09040129046014750, 1, S4),
         Part(0.01911983427899124, 4, S31(0.05742691731735682)),
         Part(0.04361493840666568, 12, S211(0.2312985436519147, 0.05135188412556341)),
         Part(0.02581167596199161, 12, S211(0.04756909881472290, 0.2967538129690260))],
        6))
    else
      Err(ValueError("Illegal closed Yu index"))
  }

  /** P. Keast (1986): eleven rules of degrees 1 to 8. Index 10 multiplies the
      concatenated weights by 6; here each weight part is multiplied. */
  function Keast(index: int): (r: Result<Tables>)
    ensures r.Ok? <==> 0 <= index <= 10
    ensures r.Err? ==> r.error == ValueError("Illegal Keast index")
    ensures r.Ok? ==> Matched(r.value.parts)
  {
    if index == 0 then
      Ok(Tables([Part(1.0, 1, S4)], 1))
    else if index == 1 then
      Ok(Tables([Part(0.25, 4, S31(0.1381966011250105))], 2))
    else if index == 2 then
      Ok(Tables(
        [Part(-0.8, 1, S4),
         Part(0.45, 4, S31(1.0 / 6.0))],
        3))
    else if index == 3 then
      Ok(Tables(
        [Part(0.2177650698804054, 4, S31(0.1438564719343852)),
         Part(0.0214899534130631, 6, S22(0.5))],
        3))
    else if index == 4 then
      Ok(Tables(
        [Part(-148.0 / 1875.0, 1, S4),
         Part(343.0 / 7500.0, 4, S31(1.0 / 14.0)),
         Part(56.0 / 375.0, 6, S22(0.3994035761667992))],
        4))
    else if index == 5 then
      Ok(Tables(
        [Part(2.0 / 105.0, 6, S22(0.5)),
         Part(0.0885898247429807, 4, S31(0.1005267652252045)),
         Part(0.1328387466855907, 4, S31(0.3143728734931922))],
        4))
    else if index == 6 then
      Ok(Tables(
        [Part(6544.0 / 36015.0, 1, S4),
         Part(81.0 / 2240.0, 4, S31(1.0 / 3.0)),
         Part(161051.0 / 2304960.0, 4, S31(1.0 / 11.0)),
         Part(338.0 / 5145.0, 6, S22(0.0665501535736643))],
        5))
    else if index == 7 then
      Ok(Tables(
        [Part(0.0399227502581679, 4, S31(0.2146028712591517)),
         Part(0.0100772110553207, 4, S31(0.0406739585346113)),
         Part(0.0553571815436544, 4, S31(0.3223378901422757)),
         Part(27.0 / 560.0, 12, S211(0.0636610018750175, 0.2696723314583159))],
        6))
    else if index == 8 then
      Ok(Tables(
        [Part(0.1095853407966528, 1, S4),
         Part(0.0635996491464850, 4, S31(0.0782131923303186)),
         Part(-0.3751064406859797, 4, S31(0.1218432166639044)),
         Part(0.0293485515784412, 4, S31(0.3325391644464206)),
         Part(0.0058201058201058, 6, S22(0.5)),
         Part(0.1653439153439105, 12, S211(0.1, 0.2))],
        7))
    else if index == 9 then
      Ok(Tables(
        [Part(-0.2359620398477557, 1, S4),
         Part(0.0244878963560562, 4, S31(0.1274709365666390)),
         Part(0.0039485206398261, 4, S31(0.0320788303926323)),
         Part(0.0263055529507371, 6, S22(0.0497770956432810)),
         Part(0.0829803830550589, 6, S22(0.1837304473985499)),
         Part(0.0254426245481023, 12, S211(0.2319010893971509, 0.5132800333608811)),
         Part(0.0134324384376852, 12, S211(0.0379700484718286, 0.1937464752488044))],
        7))
    else if index == 10 then
      Ok(Tables(
        [Part(6.0 * -0.0393270066412926145, 1, S4),
         Part(6.0 * 0.00408131605934270525, 4, S31(0.127470936566639015)),
         Part(6.0 * 0.000658086773304341943, 4, S31(0.0320788303926322960)),
         Part(6.0 * 0.00438425882512284693, 6, S22(0.0497770956432810185)),
         Part(6.0 * 0.0138300638425098166, 6, S22(0.183730447398549945)),
         Part(6.0 * 0.00424043742468372453, 12, S211(0.231901089397150906, 0.0229177878448171174)),
         Part(6.0 * 0.00223873973961420164, 12, S211(0.0379700484718286102, 0.730313427807538396))],
        8))
    else
      Err(ValueError("Illegal Keast index"))
  }

  /** Liu and Vinokur (1998): fourteen rules built from `_r_alpha`, `_r_beta`
      and `_r_gamma_delta`. Indices 8 and 12 compute their parameters in closed
      form from sqrt, cos and arccos. */
  function LiuVinokur(nm: Numerics, index: int): (r: Result<Tables>)
    ensures r.Ok? <==> 1 <= index <= 14
    ensures r.Err? ==> r.error == ValueError("Illegal Liu-Vinokur index")
    ensures r.Ok? ==> Matched(r.value.parts)
  {
    if index == 1 then
      Ok(Tables([Part(1.0, 1, S4)], 1))
    else if index == 2 then
      Ok(Tables([Part(0.25, 4, RAlpha(1.0))], 1))
    else if index == 3 then
      Ok(Tables([Part(0.25, 4, RAlpha(FloatDiv(1.0, nm.sqrt(5.0))))], 2))
    else if index == 4 then
      Ok(Tables(
        [Part(0.8, 1, S4),
         Part(0.05, 4, RAlpha(1.0))],
        2))
    else if index == 5 then
      Ok(Tables(
        [Part(-0.8, 1, S4),
         Part(0.45, 4, RAlpha(1.0 / 3.0))],
        3))
    else if index == 6 then
      Ok(Tables(
        [Part(1.0 / 40.0, 4, RAlpha(1.0)),
         Part(9.0 / 40.0, 4, RAlpha(-1.0 / 3.0))],
        3))
    else if index == 7 then
      Ok(Tables(
        [Part(-148.0 / 1875.0, 1, S4),
         Part(343.0 / 7500.0, 4, RAlpha(5.0 / 7.0)),
         Part(56.0 / 375.0, 6, RBeta(nm.sqrt(70.0) / 28.0))],
        4))
    else if index == 8 then
      var root := nm.sqrt(65944.0 - 19446.0 * nm.sqrt(11.0));
      var alpha1 := (root + 51.0 * nm.sqrt(11.0) - 154.0) / 89.0;
      var alpha2 := (-root + 51.0 * nm.sqrt(11.0) - 154.0) / 89.0;
      Ok(Tables(
        [Part(FloatDiv(17.0 * alpha2 - 7.0, 420.0 * alpha1 * alpha1 * (alpha2 - alpha1)), 4, RAlpha(alpha1)),
         Part(FloatDiv(17.0 * alpha1 - 7.0, 420.0 * alpha2 * alpha2 * (alpha1 - alpha2)), 4, RAlpha(alpha2)),
         Part(2.0 / 105.0, 6, RBeta(0.5))],
        4))
    else if index == 9 then
      Ok(Tables(
        [Part(-32.0 / 15.0, 1, S4),
         Part(3.0 / 280.0, 4, RAlpha(1.0)),
         Part(125.0 / 168.0, 4, RAlpha(0.2)),
         Part(2.0 / 105.0, 6, RBeta(0.5))],
        4))
    else if index == 10 then
      Ok(Tables(
        [Part(32.0 / 105.0, 1, S4),
         Part(-31.0 / 840.0, 4, RAlpha(1.0)),
         Part(27.0 / 280.0, 4, RAlpha(-1.0 / 3.0)),
         Part(4.0 / 105.0, 12, RGammaDelta((2.0 + nm.sqrt(2.0)) / 4.0, (2.0 - nm.sqrt(2.0)) / 4.0))],
        4))
    else if index == 11 then
      Ok(Tables(
        [Part((11.0 - 4.0 * nm.sqrt(2.0)) / 840.0, 4, RAlpha(1.0)),
         Part((243.0 - 108.0 * nm.sqrt(2.0)) / 1960.0, 4, RAlpha(-1.0 / 3.0)),
         Part((62.0 + 44.0 * nm.sqrt(2.0)) / 735.0, 4, RAlpha(nm.sqrt(2.0) - 1.0)),
         Part(2.0 / 105.0, 6, RBeta(0.5))],
        4))
    else if index == 12 then
      var lambda := 4.0 / 27.0 * (4.0 * nm.sqrt(79.0) * nm.cos(
        (nm.arccos(67.0 * nm.sqrt(79.0) / 24964.0) + 2.0 * nm.pi) / 3.0) + 71.0);
      var root := nm.sqrt(9.0 * lambda * lambda - 248.0 * lambda + 1680.0);
      var alpha1 := FloatDiv(root + 28.0 - 3.0 * lambda, 112.0 - 10.0 * lambda);
      var alpha2 := FloatDiv(-root + 28.0 - 3.0 * lambda, 112.0 - 10.0 * lambda);
      var w1 := FloatDiv((21.0 - lambda) * alpha2 - 7.0, 420.0 * alpha1 * alpha1 * (alpha2 - alpha1));
      var w2 := FloatDiv((21.0 - lambda) * alpha1 - 7.0, 420.0 * alpha2 * alpha2 * (alpha1 - alpha2));
      Ok(Tables(
        [Part(w1, 4, RAlpha(alpha1)),
         Part(w2, 4, RAlpha(alpha2)),
         Part(lambda * lambda / 840.0, 6, RBeta(FloatDiv(1.0, nm.sqrt(lambda))))],
        5))
    else if index == 13 then
      Ok(Tables(
        [Part(-16.0 / 21.0, 1, S4),
         Part((2249.0 - 391.0 * nm.sqrt(13.0)) / 10920.0, 4, RAlpha((2.0 + nm.sqrt(13.0)) / 9.0)),
         Part((2249.0 + 391.0 * nm.sqrt(13.0)) / 10920.0, 4, RAlpha((2.0 - nm.sqrt(13.0)) / 9.0)),
         Part(2.0 / 105.0, 6, RBeta(0.5))],
        5))
    else if index == 14 then
      Ok(Tables(
        [Part(16.0 / 105.0, 1, S4),
         Part(1.0 / 280.0, 4, RAlpha(1.0)),
         Part(81.0 / 1400.0, 4, RAlpha(-1.0 / 3.0)),
         Part(64.0 / 525.0, 4, RAlpha(0.5)),
         Part(2.0 / 105.0, 6, RBeta(0.5))],
        5))
    else
      Err(ValueError("Illegal Liu-Vinokur index"))
  }

  /** O. Zienkiewicz (2005): the 4-point and 5-point rules. Its error message
      names the closed Newton-Cotes rules. */
  function Zienkiewicz(index: int): (r: Result<Tables>)
    ensures r.Ok? <==> index == 4 || index == 5
    ensures r.Err? ==> r.error == ValueError("Illegal closed Newton-Cotes index")
    ensures r.Ok? ==> Matched(r.value.parts)
  {
    if index == 4 then
      Ok(Tables([Part(0.25, 4, S31(0.1381966011250105))], 2))
    else if index == 5 then
      Ok(Tables(
        [Part(-0.8, 1, S4),
         Part(0.45, 4, S31(1.0 / 6.0))],
        3))
    else
      Err(ValueError("Illegal closed Newton-Cotes index"))
  }

  /** Zhang, Cui and Liu (2009): rules of degree 8 and 14. */
  function ZhangCuiLiu(index: int): (r: Result<Tables>)
    ensures r.Ok? <==> index == 1 || index == 2
    ensures r.Err? ==> r.error == ValueError("Illegal Zhang index")
    ensures r.Ok? ==> Matched(r.value.parts)
  {
    if index == 1 then
      Ok(Tables(
        [Part(0.0063971477799023213214514203351730, 4, S31(0.0396754230703899012650713295393895)),
         Part(0.0401904480209661724881611584798178, 4, S31(0.3144878006980963137841605626971483)),
         Part(0.0243079755047703211748691087719226, 4, S31(0.1019866930627033000000000000000000)),
         Part(0.0548588924136974404669241239903914, 4, S31(0.1842036969491915122759464173489092)),
         Part(0.0357196122340991824649509689966176, 6, S22(0.0634362877545398924051412387018983)),
         Part(0.0071831906978525394094511052198038, 12, S211(0.0216901620677280048026624826249302, 0.7199319220394659358894349533527348)),
         Part(0.0163721819453191175409381397561191, 12, S211(0.2044800806367957142413355748727453, 0.5805771901288092241753981713906204))],
        8))
    else if index == 2 then
      Ok(Tables(
        [Part(0.0040651136652707670436208836835636, 4, S31(0.3272533625238485639093096692685289)),
         Part(0.0022145385334455781437599569500071, 4, S31(0.0447613044666850808837942096478842)),
         Part(0.0058134382678884505495373338821455, 4, S31(0.0861403311024363536537208740298857)),
         Part(0.0196255433858357215975623333961715, 4, S31(0.2087626425004322968265357083976176)),
         Part(0.0003875737905908214364538721248394, 4, S31(0.0141049738029209600635879152102928)),
         Part(0.0116429719721770369855213401005552, 12, S211(0.1021653241807768123476692526982584, 0.5739463675943338202814002893460107)),
         Part(0.0052890429882817131317736883052856, 12, S211(0.4075700516600107157213295651301783, 0.0922278701390201300000000000000000)),
         Part(0.0018310854163600559376697823488069, 12, S211(0.0156640007402803585557586709578084, 0.7012810959589440327139967673208426)),
         Part(0.0082496473772146452067449669173660, 12, S211(0.2254963562525029053780724154201103, 0.4769063974420887115860583354107011)),
         Part(0.0030099245347082451376888748208987, 24, S1111(0.3905984281281458000000000000000000, 0.2013590544123922168123077327235092, 0.0161122880710300298578026931548371)),
         Part(0.0008047165617367534636261808760312, 24, S1111(0.1061350679989021455556139029848079, 0.0327358186817269284944004077912660, 0.0035979076537271666907971523385925)),
         Part(0.0029850412588493071187655692883922, 24, S1111(0.5636383731697743896896816630648502, 0.2302920722300657454502526874135652, 0.1907199341743551862712487790637898)),
         Part(0.0056896002418760766963361477811973, 24, S1111(0.3676255095325860844092206775991167, 0.2078851380230044950717102125250735, 0.3312104885193449000000000000000000)),
         Part(0.0041590865878545715670013980182613, 24, S1111(0.7192323689817295295023401840796991, 0.1763279118019329762157993033636973, 0.0207602362571310090754973440611644)),
         Part(0.0007282389204572724356136429745654, 24, S1111(0.5278249952152987298409240075817276, 0.4372890892203418165526238760841918, 0.0092201651856641949463177554949220)),
         Part(0.0054326500769958248216242340651926, 24, S1111(0.5483674544948190728994910505607746, 0.3447815506171641228703671870920331, 0.0867217283322215394629438740085828))],
        14))
    else
      Err(ValueError("Illegal Zhang index"))
  }

  /** Shunn and Ham (2012): six rules with 1 to 56 points. */
  function ShunnHam(index: int): (r: Result<Tables>)
    ensures r.Ok? <==> 1 <= index <= 6
    ensures r.Err? ==> r.error == ValueError("Illegal Shunn-Ham index")
    ensures r.Ok? ==> Matched(r.value.parts)
  {
    if index == 1 then
      Ok(Tables([Part(1.0, 1, S4)], 1))
    else if index == 2 then
      Ok(Tables([Part(0.25, 4, S31(0.1381966011250110))], 2))
    else if index == 3 then
      Ok(Tables(
        [Part(0.0476331348432089, 4, S31(0.0738349017262234)),
         Part(0.1349112434378610, 6, S22(0.0937556561159491))],
        3))
    else if index == 4 then
      Ok(Tables(
        [Part(0.0070670747944695, 4, S31(0.0323525947272439)),
         Part(0.0469986689718877, 12, S211(0.0603604415251421, 0.2626825838877790)),
         Part(0.1019369182898680, 4, S31(0.3097693042728620))],
        5))
    else if index == 5 then
      Ok(Tables(
        [Part(0.0021900463965388, 4, S31(0.0267367755543735)),
         Part(0.0143395670177665, 12, S211(0.0391022406356488, 0.7477598884818090)),
         Part(0.0250305395686746, 6, S22(0.0452454000155172)),
         Part(0.0479839333057554, 12, S211(0.2232010379623150, 0.0504792790607720)),
         Part(0.0931745731195340, 1, S4)],
        6))
    else if index == 6 then
      Ok(Tables(
        [Part(0.0010373112336140, 4, S31(0.0149520651530592)),
         Part(0.0096016645399480, 12, S211(0.0340960211962615, 0.1518319491659370)),
         Part(0.0164493976798232, 12, S211(0.0462051504150017, 0.5526556431060170)),
         Part(0.0153747766513310, 12, S211(0.2281904610687610, 0.0055147549744775)),
         Part(0.0293520118375230, 12, S211(0.3523052600879940, 0.0992057202494530)),
         Part(0.0366291366405108, 4, S31(0.1344783347929940))],
        7))
    else
      Err(ValueError("Illegal Shunn-Ham index"))
  }

  // ---------------------------------------------------------------------
  // Weight sums. The weights of every table are normalised to the volume of
  // the reference tetrahedron, 1/6, divided by 1/6: they sum to 1. Tables in
  // closed form meet this exactly; tables printed as decimals meet it to the
  // printed precision.

  /** How far a decimal table may miss 1. */
  const DecimalSlack: real := 0.00000000000001

  predicate NearOne(x: real)
  {
    -DecimalSlack < x - 1.0 < DecimalSlack
  }

  /** The weights a scheme ends up with sum to the parts' total. */
  lemma BuildWeightSum(t: Tables)
    ensures Sum(Build(t).weights) == PartsTotal(t.parts)
  {
    SumWeights(t.parts);
  }

  lemma HammerMarloweStroudWeights(nm: Numerics, index: int)
    requires 1 <= index <= 3
    ensures HammerMarloweStroud(nm, index).Ok?
    ensures PartsTotal(HammerMarloweStroud(nm, index).value.parts) == 1.0
  {
  }

  lemma YuWeights(index: int)
    requires 1 <= index <= 5
    ensures Yu(index).Ok?
    ensures index <= 2 ==> PartsTotal(Yu(index).value.parts) == 1.0
    ensures NearOne(PartsTotal(Yu(index).value.parts))
  {
  }

  lemma KeastWeights(index: int)
    requires index in {0, 1, 2, 4, 6}
    ensures Keast(index).Ok?
    ensures PartsTotal(Keast(index).value.parts) == 1.0
  {
  }

  lemma KeastDecimalWeights(index: int)
    requires index in {3, 5, 7, 8}
    ensures Keast(index).Ok?
    ensures NearOne(PartsTotal(Keast(index).value.parts))
  {
  }

  lemma KeastLongDecimalWeights(index: int)
    requires index == 9 || index == 10
    ensures Keast(index).Ok?
    ensures NearOne(PartsTotal(Keast(index).value.parts))
  {
  }

  lemma LiuVinokurWeights(nm: Numerics, index: int)
    requires 1 <= index <= 6 || index == 9 || index == 14
    ensures LiuVinokur(nm, index).Ok?
    ensures PartsTotal(LiuVinokur(nm, index).value.parts) == 1.0
  {
  }

  /** Indices 7 and 10 use `sqrt` only in their points; indices 11 and 13 have
      weights a + b sqrt(2) and a +- b sqrt(13) whose surds cancel. So the sum
      is 1 whatever `sqrt` returns. */
  lemma LiuVinokurSurdWeights(nm: Numerics, index: int)
    requires index in {7, 10, 11, 13}
    ensures LiuVinokur(nm, index).Ok?
    ensures PartsTotal(LiuVinokur(nm, index).value.parts) == 1.0
  {
    var parts := LiuVinokur(nm, index).value.parts;
    if index == 7 {
      PartsTotalThree(parts);
    } else {
      PartsTotalFour(parts);
    }
  }

  lemma ZienkiewiczWeights(index: int)
    requires index == 4 || index == 5
    ensures Zienkiewicz(index).Ok?
    ensures PartsTotal(Zienkiewicz(index).value.parts) == 1.0
  {
  }

  lemma ZhangCuiLiuWeights(index: int)
    requires index == 1 || index == 2
    ensures ZhangCuiLiu(index).Ok?
    ensures NearOne(PartsTotal(ZhangCuiLiu(index).value.parts))
  {
    if index == 2 {
      ZhangCuiLiuLongWeights();
    }
  }

  /** The total of the parts from position k on is the k-th part's total
      plus the total after it. */
  lemma PartsTotalFrom(parts: seq<Part>, k: nat, rest: real, total: real)
    requires k < |parts| && PartsTotal(parts[k + 1..]) == rest
    requires total == parts[k].count as real * parts[k].weight + rest
    ensures PartsTotal(parts[k..]) == total
  {
    assert parts[k..][1..] == parts[k + 1..];
  }

  /** `ZhangCuiLiuLongFrom<k>` gives the total of the parts of index 2 from
      position k on, summed from the last part towards the first. */
  lemma ZhangCuiLiuLongFrom12(p: seq<Part>)
    requires ZhangCuiLiu(2).Ok? && p == ZhangCuiLiu(2).value.parts
    ensures |p| == 16
    ensures PartsTotal(p[12..]) == 0.3842298198524098924938101481411984
  {
    assert PartsTotal(p[16..]) == 0.0;
    PartsTotalFrom(p, 15, 0.0, 0.1303836018478997957189816175646224);
    PartsTotalFrom(p, 14, 0.1303836018478997957189816175646224, 0.147861335938874334173709048954192);
    PartsTotalFrom(p, 13, 0.147861335938874334173709048954192, 0.2476794140473840517817426013924632);
    PartsTotalFrom(p, 12, 0.2476794140473840517817426013924632, 0.3842298198524098924938101481411984);
  }

  lemma ZhangCuiLiuLongFrom11(p: seq<Part>)
    requires ZhangCuiLiu(2).Ok? && p == ZhangCuiLiu(2).value.parts
    ensures |p| == 16
    ensures PartsTotal(p[11..]) == 0.4558708100647932633441838110626112
  {
    ZhangCuiLiuLongFrom12(p);
    PartsTotalFrom(p, 11, 0.3842298198524098924938101481411984, 0.4558708100647932633441838110626112);
  }

  lemma ZhangCuiLiuLongFrom10(p: seq<Part>)
    requires ZhangCuiLiu(2).Ok? && p == ZhangCuiLiu(2).value.parts
    ensures |p| == 16
    ensures PartsTotal(p[10..]) == 0.47518400754647534647121215208736
  {
    ZhangCuiLiuLongFrom11(p);
    PartsTotalFrom(p, 10, 0.4558708100647932633441838110626112, 0.47518400754647534647121215208736);
  }

  lemma ZhangCuiLiuLongFrom9(p: seq<Part>)
    requires ZhangCuiLiu(2).Ok? && p == ZhangCuiLiu(2).value.parts
    ensures |p| == 16
    ensures PartsTotal(p[9..]) == 0.5474221963794732297757451477889288
  {
    ZhangCuiLiuLongFrom10(p);
    PartsTotalFrom(p, 9, 0.47518400754647534647121215208736, 0.5474221963794732297757451477889288);
  }

  lemma ZhangCuiLiuLongFrom8(p: seq<Part>)
    requires ZhangCuiLiu(2).Ok? && p == ZhangCuiLiu(2).value.parts
    ensures |p| == 16
    ensures PartsTotal(p[8..]) == 0.6464179649060489722566847507973208
  {
    ZhangCuiLiuLongFrom9(p);
    PartsTotalFrom(p, 8, 0.5474221963794732297757451477889288, 0.6464179649060489722566847507973208);
  }

  lemma ZhangCuiLiuLongFrom7(p: seq<Part>)
    requires ZhangCuiLiu(2).Ok? && p == ZhangCuiLiu(2).value.parts
    ensures |p| == 16
    ensures PartsTotal(p[7..]) == 0.6683909899023696435087221389830036
  {
    ZhangCuiLiuLongFrom8(p);
    PartsTotalFrom(p, 7, 0.6464179649060489722566847507973208, 0.6683909899023696435087221389830036);
  }

  lemma ZhangCuiLiuLongFrom6(p: seq<Part>)
    requires ZhangCuiLiu(2).Ok? && p == ZhangCuiLiu(2).value.parts
    ensures |p| == 16
    ensures PartsTotal(p[6..]) == 0.7318595057617502010900063986464308
  {
    ZhangCuiLiuLongFrom7(p);
    PartsTotalFrom(p, 6, 0.6683909899023696435087221389830036, 0.7318595057617502010900063986464308);
  }

  lemma ZhangCuiLiuLongFrom5(p: seq<Part>)
    requires ZhangCuiLiu(2).Ok? && p == ZhangCuiLiu(2).value.parts
    ensures |p| == 16
    ensures PartsTotal(p[5..]) == 0.8715751694278746449162624798530932
  {
    ZhangCuiLiuLongFrom6(p);
    PartsTotalFrom(p, 5, 0.7318595057617502010900063986464308, 0.8715751694278746449162624798530932);
  }

  lemma ZhangCuiLiuLongFrom4(p: seq<Part>)
    requires ZhangCuiLiu(2).Ok? && p == ZhangCuiLiu(2).value.parts
    ensures |p| == 16
    ensures PartsTotal(p[4..]) == 0.8731254645902379306620779683524508
  {
    ZhangCuiLiuLongFrom5(p);
    PartsTotalFrom(p, 4, 0.8715751694278746449162624798530932, 0.8731254645902379306620779683524508);
  }

  lemma ZhangCuiLiuLongFrom3(p: seq<Part>)
    requires ZhangCuiLiu(2).Ok? && p == ZhangCuiLiu(2).value.parts
    ensures |p| == 16
    ensures PartsTotal(p[3..]) == 0.9516276381335808170523273019371368
  {
    ZhangCuiLiuLongFrom4(p);
    PartsTotalFrom(p, 3, 0.8731254645902379306620779683524508, 0.9516276381335808170523273019371368);
  }

  lemma ZhangCuiLiuLongFrom2(p: seq<Part>)
    requires ZhangCuiLiu(2).Ok? && p == ZhangCuiLiu(2).value.parts
    ensures |p| == 16
    ensures PartsTotal(p[2..]) == 0.9748813912051346192504766374657188
  {
    ZhangCuiLiuLongFrom3(p);
    PartsTotalFrom(p, 2, 0.9516276381335808170523273019371368, 0.9748813912051346192504766374657188);
  }

  lemma ZhangCuiLiuLongFrom1(p: seq<Part>)
    requires ZhangCuiLiu(2).Ok? && p == ZhangCuiLiu(2).value.parts
    ensures |p| == 16
    ensures PartsTotal(p[1..]) == 0.9837395453389169318255164652657472
  {
    ZhangCuiLiuLongFrom2(p);
    PartsTotalFrom(p, 1, 0.9748813912051346192504766374657188, 0.9837395453389169318255164652657472);
  }

  /** Index 2 has sixteen parts; its total, built up from the last part,
      exceeds 1 by 1.6e-33. */
  lemma ZhangCuiLiuLongWeights()
    ensures ZhangCuiLiu(2).Ok?
    ensures NearOne(PartsTotal(ZhangCuiLiu(2).value.parts))
  {
    var p := ZhangCuiLiu(2).value.parts;
    ZhangCuiLiuLongFrom1(p);
    PartsTotalFrom(p, 0, 0.9837395453389169318255164652657472, 1.0000000000000000000000000000000016);
    assert p[0..] == p;
  }

  lemma ShunnHamWeights(index: int)
    requires index == 1 || index == 2
    ensures ShunnHam(index).Ok?
    ensures PartsTotal(ShunnHam(index).value.parts) == 1.0
  {
  }

  lemma ShunnHamDecimalWeights(index: int)
    requires 3 <= index <= 6
    ensures ShunnHam(index).Ok?
    ensures NearOne(PartsTotal(ShunnHam(index).value.parts))
  {
  }
}
