/**
 The frozen request schedule of the qualification programme: rotated blocks of
 arms, two warm-ups after every load, and the identity of each request.

 The SHA-256 digest of a text is modelled as a constructor over that text, that is,
 as an injective function.
 */
module Schedule {
  import opened Common
  import opened Sorting
  import opened Text

  datatype Category = Sparse | Cluttered | Workshop | SyntheticPeople | Outdoor | Degraded | VisibleText

  datatype Split = Development | Holdout

  datatype Stage = Screen | DevelopmentRun | HoldoutRun | Sustained

  datatype Digest = Sha256(text: string)

  datatype Image = Image(id: string, sha256: string, category: Category, split: Split)

  datatype ArmId = GemmaE2B | Qwen4B | Qwen2B | Qwen08B

  datatype Configuration = Configuration(id: ArmId, workerId: string)

  datatype Request = Request(
    id: Digest, arm: ArmId, imageId: string, imageSha256: string, question: nat, repetition: nat, block: nat,
    warmup: bool)

  datatype ScheduleError = TooManyFinalists | NotOneFinalist

  const CATEGORIES := [Sparse, Cluttered, Workshop, SyntheticPeople, Outdoor, Degraded, VisibleText]

  function CategoryIndex(c: Category): (k: nat)
    ensures k < 7 && CATEGORIES[k] == c
  {
    match c
    case Sparse => 0 case Cluttered => 1 case Workshop => 2 case SyntheticPeople => 3
    case Outdoor => 4 case Degraded => 5 case VisibleText => 6
  }

  const ARMS := [GemmaE2B, Qwen4B, Qwen2B, Qwen08B]

  function ArmIndex(a: ArmId): (k: nat)
    ensures k < 4 && ARMS[k] == a
  {
    match a
    case GemmaE2B => 0 case Qwen4B => 1 case Qwen2B => 2 case Qwen08B => 3
  }

  function ArmName(a: ArmId): string {
    match a
    case GemmaE2B => "gemma-e2b" case Qwen4B => "qwen-4b" case Qwen2B => "qwen-2b" case Qwen08B => "qwen-08b"
  }

  function StageName(s: Stage): string {
    match s
    case Screen => "screen" case DevelopmentRun => "development"
    case HoldoutRun => "holdout" case Sustained => "sustained"
  }

  function SplitFor(s: Stage): Split {
    if s == HoldoutRun then Holdout else Development
  }

  function Repetitions(s: Stage): nat {
    match s
    case Screen => 1 case DevelopmentRun => 3 case HoldoutRun => 5 case Sustained => 1
  }

  // ----- What the corpus and the matrix accept -----

  predicate WellFormedId(id: string) {
    id != "" && ':' !in id
  }

  function InGroup(images: seq<Image>, c: Category, s: Split): seq<Image> {
    if images == [] then []
    else (if images[0].category == c && images[0].split == s then [images[0]] else []) + InGroup(images[1..], c, s)
  }

  ghost predicate BalancedCorpus(images: seq<Image>) {
    && |images| == 28
    && (forall i :: 0 <= i < |images| ==> WellFormedId(images[i].id))
    && (forall i, j :: 0 <= i < j < |images| ==> images[i].id != images[j].id && images[i].sha256 != images[j].sha256)
    && (forall c: Category, s: Split :: |InGroup(images, c, s)| == 2)
  }

  ghost predicate UniqueMatrix(arms: seq<Configuration>) {
    && 1 <= |arms| <= 4
    && forall i, j :: 0 <= i < j < |arms| ==> arms[i].id != arms[j].id && arms[i].workerId != arms[j].workerId
  }

  // ----- Choosing images and ordering arms -----

  function OfSplit(images: seq<Image>, s: Split): seq<Image> {
    if images == [] then []
    else (if images[0].split == s then [images[0]] else []) + OfSplit(images[1..], s)
  }

  predicate ImageAtMost(a: Image, b: Image) {
    CategoryIndex(a.category) < CategoryIndex(b.category)
    || (a.category == b.category && StringAtMost(a.id, b.id))
  }

  predicate ArmAtMost(a: Configuration, b: Configuration) {
    ArmIndex(a.id) <= ArmIndex(b.id)
  }

  function FirstOf(images: seq<Image>, c: Category): Option<Image> {
    if images == [] then None
    else if images[0].category == c then Some(images[0])
    else FirstOf(images[1..], c)
  }

  function FirstOfEach(images: seq<Image>, categories: seq<Category>): seq<Image> {
    if categories == [] then []
    else
      (var f := FirstOf(images, categories[0]); if f.Some? then [f.value] else [])
      + FirstOfEach(images, categories[1..])
  }

  function ImagesFor(corpus: seq<Image>, s: Stage): seq<Image> {
    var images := Sorted(ImageAtMost, OfSplit(corpus, SplitFor(s)));
    if s == Screen then FirstOfEach(images, CATEGORIES[..4]) else images
  }

  // Rotate by the block number; every odd block runs the rotation backwards.
  function Rotated<T>(arms: seq<T>, block: nat): (r: seq<T>)
    requires |arms| > 0
    ensures |r| == |arms|
  {
    arms[block % |arms|..] + arms[..block % |arms|]
  }

  function Reversed<T>(s: seq<T>): (r: seq<T>)
    ensures |r| == |s|
    ensures forall i :: 0 <= i < |s| ==> r[i] == s[|s| - 1 - i]
  {
    if s == [] then [] else Reversed(s[1..]) + [s[0]]
  }

  function ArmOrder<T>(arms: seq<T>, block: nat): (r: seq<T>)
    requires |arms| > 0
    ensures |r| == |arms|
  {
    if block % 2 == 1 then Reversed(Rotated(arms, block)) else Rotated(arms, block)
  }

  // ----- The requests -----

  datatype Trial = Trial(image: Image, question: nat, warmup: bool)

  function QuestionsOf(image: Image): seq<Trial> {
    seq(7, q requires 0 <= q < 7 => Trial(image, q, false))
  }

  function MeasuredTrials(images: seq<Image>): seq<Trial> {
    if images == [] then [] else QuestionsOf(images[0]) + MeasuredTrials(images[1..])
  }

  function FirstUpTo<T>(s: seq<T>, n: nat): seq<T> {
    if |s| <= n then s else s[..n]
  }

  function TrialsFor(images: seq<Image>, s: Stage): seq<Trial>
    requires |images| > 0
  {
    var measured := MeasuredTrials(images);
    [Trial(images[0], 0, true), Trial(images[0], 1, true)]
    + if s == Sustained then FirstUpTo(measured + measured + measured, 210) else measured
  }

  function Identity(s: Stage, block: nat, arm: ArmId, imageId: string, question: nat, warmup: bool,
      occurrence: nat): string
  {
    StageName(s) + ":" + (Decimal(block) + ":" + (ArmName(arm) + ":" + (imageId + ":"
      + ("q" + Decimal(question + 1) + ":" + ((if warmup then "True" else "False") + ":" + Decimal(occurrence))))))
  }

  function RequestFor(s: Stage, block: nat, arm: ArmId, t: Trial, occurrence: nat): Request {
    Request(Sha256(Identity(s, block, arm, t.image.id, t.question, t.warmup, occurrence)),
            arm, t.image.id, t.image.sha256, t.question + 1, block + 1, block, t.warmup)
  }

  // The requests of one arm in one block, the trials numbered as they come.
  function Load(s: Stage, block: nat, arm: ArmId, trials: seq<Trial>): (r: seq<Request>)
    ensures |r| == |trials|
    ensures forall o :: 0 <= o < |trials| ==> r[o] == RequestFor(s, block, arm, trials[o], o)
  {
    seq(|trials|, o requires 0 <= o < |trials| => RequestFor(s, block, arm, trials[o], o))
  }

  function Loads(s: Stage, block: nat, arms: seq<Configuration>, trials: seq<Trial>): seq<Request> {
    if arms == [] then []
    else Loads(s, block, arms[..|arms| - 1], trials) + Load(s, block, Last(arms).id, trials)
  }

  function Blocks(s: Stage, blocks: nat, arms: seq<Configuration>, trials: seq<Trial>): seq<Request>
    requires |arms| > 0
  {
    if blocks == 0 then []
    else Blocks(s, blocks - 1, arms, trials) + Loads(s, blocks - 1, ArmOrder(arms, blocks - 1), trials)
  }

  function Refusal(s: Stage, arms: nat): Option<ScheduleError> {
    if s == HoldoutRun && arms > 2 then Some(TooManyFinalists)
    else if s == Sustained && arms != 1 then Some(NotOneFinalist)
    else None
  }

  function Requests(corpus: seq<Image>, matrix: seq<Configuration>, s: Stage): seq<Request>
    requires |matrix| > 0 && |ImagesFor(corpus, s)| > 0
  {
    Blocks(s, Repetitions(s), Sorted(ArmAtMost, matrix), TrialsFor(ImagesFor(corpus, s), s))
  }

  /** Lay out the schedule, block by block, arm by arm, trial by trial.  A holdout asks only
      about holdout images and every other stage only about development images, each with
      its frozen digest; the stages have one, three, five and one blocks. */
  method MakeSchedule(corpus: seq<Image>, matrix: seq<Configuration>, s: Stage)
      returns (result: Result<seq<Request>, ScheduleError>)
    requires BalancedCorpus(corpus) && UniqueMatrix(matrix)
    ensures |ImagesFor(corpus, s)| > 0
    ensures result == match Refusal(s, |matrix|)
                      case Some(e) => Err(e)
                      case None => Ok(Requests(corpus, matrix, s))
    ensures result.Err? <==> (s == HoldoutRun && |matrix| > 2) || (s == Sustained && |matrix| != 1)
    ensures result.Ok? ==> forall r :: r in result.value ==>
      && (exists i :: i in corpus && r.imageId == i.id && r.imageSha256 == i.sha256
            && i.split == if s == HoldoutRun then Holdout else Development)
      && (exists a :: a in matrix && r.arm == a.id)
      && r.block < (match s case Screen => 1 case DevelopmentRun => 3 case HoldoutRun => 5 case Sustained => 1)
  {
    hide Loads, Load, BalancedCorpus, ImagesFor, RequestFor;
    StageImages(corpus, s);
    forall r | r in Requests(corpus, matrix, s)
      ensures exists i ::
        && i in corpus && r.imageId == i.id && r.imageSha256 == i.sha256
        && i.split == if s == HoldoutRun then Holdout else Development
      ensures exists a :: a in matrix && r.arm == a.id
      ensures r.block < match s case Screen => 1 case DevelopmentRun => 3 case HoldoutRun => 5 case Sustained => 1
    {
      EveryRequestIsOfItsStage(corpus, matrix, s, r);
    }
    var images := ImagesFor(corpus, s);
    var arms := Sorted(ArmAtMost, matrix);
    if s == HoldoutRun && |arms| > 2 {
      return Err(TooManyFinalists);
    }
    if s == Sustained && |arms| != 1 {
      return Err(NotOneFinalist);
    }
    var trials := TrialsFor(images, s);
    var requests: seq<Request> := [];
    for block := 0 to Repetitions(s)
      invariant requests == Blocks(s, block, arms, trials)
    {
      var ordered := arms[block % |arms|..] + arms[..block % |arms|];
      if block % 2 == 1 {
        ordered := Reversed(ordered);
      }
      requests := AppendBlock(requests, s, block, ordered, trials);
    }
    return Ok(requests);
  }

  method AppendBlock(before: seq<Request>, s: Stage, block: nat, ordered: seq<Configuration>, trials: seq<Trial>)
      returns (requests: seq<Request>)
    ensures requests == before + Loads(s, block, ordered, trials)
  {
    hide RequestFor;
    requests := before;
    for k := 0 to |ordered|
      invariant requests == before + Loads(s, block, ordered[..k], trials)
    {
      assert ordered[..k + 1][..k] == ordered[..k];
      ghost var done := requests;
      for occurrence := 0 to |trials|
        invariant requests == done + Load(s, block, ordered[k].id, trials)[..occurrence]
      {
        requests := requests + [RequestFor(s, block, ordered[k].id, trials[occurrence], occurrence)];
      }
      assert Load(s, block, ordered[k].id, trials)[..|trials|] == Load(s, block, ordered[k].id, trials);
    }
    assert ordered[..|ordered|] == ordered;
  }

  // ----- The trials of a load -----

  lemma {:induction false} MeasuredAt(images: seq<Image>, j: nat)
    requires j < 7 * |images|
    ensures |MeasuredTrials(images)| == 7 * |images|
    ensures MeasuredTrials(images)[j] == Trial(images[j / 7], j % 7, false)
  {
    if j < 7 {
      MeasuredLength(images);
    } else {
      MeasuredAt(images[1..], j - 7);
    }
  }

  lemma {:induction false} MeasuredLength(images: seq<Image>)
    ensures |MeasuredTrials(images)| == 7 * |images|
  {
    if images != [] {
      MeasuredLength(images[1..]);
    }
  }

  lemma ThriceAt(m: seq<Trial>, j: nat)
    requires |m| == 98 && j < 210
    ensures FirstUpTo(m + m + m, 210)[j] == m[j % 98] && (j % 98) / 7 == (j / 7) % 14 && (j % 98) % 7 == j % 7
  {
    var all := m + m + m;
    assert all[j] == m[if j < 98 then j else if j < 196 then j - 98 else j - 196];
  }

  // Two warm-ups on the first image, then all questions image by image; a sustained load
  // starts over when the images are used up.
  lemma TrialAt(images: seq<Image>, s: Stage, o: nat)
    requires |images| > 0 && o < |TrialsFor(images, s)| && (s == Sustained ==> |images| == 14)
    ensures o < 2 ==> TrialsFor(images, s)[o] == Trial(images[0], o, true)
    ensures o >= 2 ==> TrialsFor(images, s)[o] == Trial(images[((o - 2) / 7) % |images|], (o - 2) % 7, false)
  {
    hide MeasuredTrials, FirstUpTo;
    if o >= 2 {
      var m := MeasuredTrials(images);
      assert TrialsFor(images, s)[o] == (if s == Sustained then FirstUpTo(m + m + m, 210) else m)[o - 2];
      if s == Sustained {
        SustainedAt(images, o - 2);
      } else {
        OnePassAt(images, o - 2);
      }
    }
  }

  lemma OnePassAt(images: seq<Image>, j: nat)
    requires j < |MeasuredTrials(images)|
    ensures |images| > 0 && MeasuredTrials(images)[j] == Trial(images[(j / 7) % |images|], j % 7, false)
  {
    hide MeasuredTrials;
    MeasuredLength(images);
    MeasuredAt(images, j);
    SmallRemainder(j / 7, |images|);
  }

  lemma SmallRemainder(a: nat, n: nat)
    requires a < n
    ensures a % n == a
  {
  }

  lemma SustainedAt(images: seq<Image>, j: nat)
    requires |images| == 14
    ensures
      var m := MeasuredTrials(images);
      && |FirstUpTo(m + m + m, 210)| == 210
      && (j < 210 ==> FirstUpTo(m + m + m, 210)[j] == Trial(images[(j / 7) % 14], j % 7, false))
  {
    hide MeasuredTrials, FirstUpTo;
    var m := MeasuredTrials(images);
    MeasuredLength(images);
    FirstFew(m + m + m, 210);
    if j < 210 {
      ThriceAt(m, j);
      MeasuredAt(images, j % 98);
    }
  }

  lemma FirstFew<T>(s: seq<T>, n: nat)
    ensures |FirstUpTo(s, n)| == if |s| <= n then |s| else n
  {
  }

  // A request for one of these arms and trials.
  ghost predicate Asks(r: Request, arms: seq<Configuration>, trials: seq<Trial>) {
    && (exists a :: a in arms && a.id == r.arm)
    && (exists t :: t in trials && r.imageId == t.image.id && r.imageSha256 == t.image.sha256)
  }

  lemma {:induction false} LoadsAsk(s: Stage, block: nat, arms: seq<Configuration>, all: seq<Configuration>,
      trials: seq<Trial>)
    requires forall a :: a in arms ==> a in all
    ensures forall r :: r in Loads(s, block, arms, trials) ==> r.block == block && Asks(r, all, trials)
  {
    hide Load, Asks;
    if arms != [] {
      LoadsAsk(s, block, arms[..|arms| - 1], all, trials);
      LoadAsks(s, block, Last(arms), all, trials);
    }
  }

  lemma LoadAsks(s: Stage, block: nat, a: Configuration, all: seq<Configuration>, trials: seq<Trial>)
    requires a in all
    ensures forall r :: r in Load(s, block, a.id, trials) ==> r.block == block && Asks(r, all, trials)
  {
  }

  lemma ArmOrderKeepsArms(arms: seq<Configuration>, block: nat)
    requires |arms| > 0
    ensures forall c :: c in ArmOrder(arms, block) <==> c in arms
  {
    var r := block % |arms|;
    var rotated := Rotated(arms, block);
    assert arms == arms[..r] + arms[r..];
    assert forall c :: c in rotated <==> c in arms;
    var order := ArmOrder(arms, block);
    assert forall i :: 0 <= i < |order| ==> order[i] in rotated;
    forall c | c in rotated ensures c in order {
      var i :| 0 <= i < |rotated| && rotated[i] == c;
      assert order[if block % 2 == 1 then |arms| - 1 - i else i] == c;
    }
  }

  lemma {:induction false} BlocksAsk(s: Stage, blocks: nat, arms: seq<Configuration>, trials: seq<Trial>)
    requires |arms| > 0
    ensures forall r :: r in Blocks(s, blocks, arms, trials) ==> r.block < blocks && Asks(r, arms, trials)
  {
    hide Loads, ArmOrder, Asks;
    if blocks > 0 {
      var order := ArmOrder(arms, blocks - 1);
      BlocksAsk(s, blocks - 1, arms, trials);
      ArmOrderKeepsArms(arms, blocks - 1);
      LoadsAsk(s, blocks - 1, order, arms, trials);
    }
  }

  lemma EveryRequestIsOfItsStage(corpus: seq<Image>, matrix: seq<Configuration>, s: Stage, r: Request)
    requires BalancedCorpus(corpus) && |matrix| > 0 && |ImagesFor(corpus, s)| > 0 && r in Requests(corpus, matrix, s)
    ensures exists i ::
      && i in corpus && r.imageId == i.id && r.imageSha256 == i.sha256
      && i.split == if s == HoldoutRun then Holdout else Development
    ensures exists a :: a in matrix && r.arm == a.id
    ensures r.block < match s case Screen => 1 case DevelopmentRun => 3 case HoldoutRun => 5 case Sustained => 1
  {
    hide Blocks, ImagesFor, TrialsFor, BalancedCorpus;
    var images, arms := ImagesFor(corpus, s), Sorted(ArmAtMost, matrix);
    var trials := TrialsFor(images, s);
    BlocksAsk(s, Repetitions(s), arms, trials);
    SortedHasSameElements(ArmAtMost, matrix);
    StageImages(corpus, s);
    var t :| t in trials && r.imageId == t.image.id && r.imageSha256 == t.image.sha256;
    var o :| 0 <= o < |trials| && trials[o] == t;
    TrialAt(images, s, o);
    assert t.image in images;
  }

  // ----- The images of a stage -----

  lemma {:induction false} SplitIsSumOfGroups(images: seq<Image>, s: Split)
    ensures |OfSplit(images, s)| == |InGroup(images, Sparse, s)| + |InGroup(images, Cluttered, s)|
              + |InGroup(images, Workshop, s)| + |InGroup(images, SyntheticPeople, s)| + |InGroup(images, Outdoor, s)|
              + |InGroup(images, Degraded, s)| + |InGroup(images, VisibleText, s)|
  {
    if images != [] {
      SplitIsSumOfGroups(images[1..], s);
      match images[0].category
      case Sparse => case Cluttered => case Workshop => case SyntheticPeople =>
      case Outdoor => case Degraded => case VisibleText =>
    }
  }

  lemma {:induction false} OfSplitKeeps(images: seq<Image>, s: Split)
    ensures forall i :: i in OfSplit(images, s) <==> i in images && i.split == s
    ensures (forall i, j :: 0 <= i < j < |images| ==> images[i].id != images[j].id) ==> DistinctIds(OfSplit(images, s))
  {
    if images != [] {
      OfSplitKeeps(images[1..], s);
      var rest := OfSplit(images[1..], s);
      if forall i, j :: 0 <= i < j < |images| ==> images[i].id != images[j].id {
        forall j | 0 <= j < |rest| ensures rest[j].id != images[0].id {
          assert rest[j] in images[1..];
          var k :| 0 <= k < |images[1..]| && images[1..][k] == rest[j];
          assert images[k + 1] == rest[j];
        }
      }
    }
  }

  ghost predicate DistinctIds(images: seq<Image>) {
    forall i, j :: 0 <= i < j < |images| ==> images[i].id != images[j].id
  }

  lemma {:induction false} InGroupMeans(images: seq<Image>, c: Category, s: Split)
    ensures forall i :: i in InGroup(images, c, s) ==> i in images && i.category == c && i.split == s
  {
    if images != [] {
      InGroupMeans(images[1..], c, s);
    }
  }

  lemma {:induction false} FirstOfFinds(images: seq<Image>, c: Category)
    ensures FirstOf(images, c).Some? <==> exists i :: i in images && i.category == c
    ensures FirstOf(images, c).Some? ==> FirstOf(images, c).value in images && FirstOf(images, c).value.category == c
  {
    if images != [] {
      FirstOfFinds(images[1..], c);
      assert images == [images[0]] + images[1..];
    }
  }

  lemma DistinctIdsSurvive(a: seq<Image>, b: seq<Image>)
    requires multiset(a) == multiset(b) && DistinctIds(a)
    ensures DistinctIds(b)
  {
    NoRepeatsSurvives(a, b);
    forall i, j | 0 <= i < j < |b| ensures b[i].id != b[j].id {
      assert b[i] in multiset(a) && b[j] in multiset(a);
      var k :| 0 <= k < |a| && a[k] == b[i];
      var l :| 0 <= l < |a| && a[l] == b[j];
    }
  }

  /** A balanced corpus gives every stage its images.  A holdout gets the 14 holdout
      images, a development and a sustained run the 14 development images, by category and
      identity; a screen gets, of each of the first four categories, the development image
      with the smallest identity. */
  lemma StageImages(corpus: seq<Image>, s: Stage)
    requires BalancedCorpus(corpus)
    ensures |ImagesFor(corpus, s)| == if s == Screen then 4 else 14
    ensures DistinctIds(ImagesFor(corpus, s))
    ensures forall i :: i in ImagesFor(corpus, s) ==>
      i in corpus && i.split == (if s == HoldoutRun then Holdout else Development) && WellFormedId(i.id)
    ensures s != Screen ==>
      && (forall i :: i in corpus && i.split == (if s == HoldoutRun then Holdout else Development) ==>
            i in ImagesFor(corpus, s))
      && Ordered(ImageAtMost, ImagesFor(corpus, s))
    ensures s == Screen ==> forall k :: 0 <= k < 4 ==>
      && ImagesFor(corpus, s)[k].category == [Sparse, Cluttered, Workshop, SyntheticPeople][k]
      && forall i :: i in corpus && i.split == Development && i.category == ImagesFor(corpus, s)[k].category ==>
           StringAtMost(ImagesFor(corpus, s)[k].id, i.id)
  {
    var split := SplitFor(s);
    var chosen := OfSplit(corpus, split);
    var images := Sorted(ImageAtMost, chosen);
    SplitIsSumOfGroups(corpus, split);
    OfSplitKeeps(corpus, split);
    SortedIsPermutation(ImageAtMost, chosen);
    SortedHasSameElements(ImageAtMost, chosen);
    ImageOrderIsTotal();
    SortedIsOrdered(ImageAtMost, chosen);
    DistinctIdsSurvive(chosen, images);
    forall i | i in images ensures WellFormedId(i.id) {
      var k :| 0 <= k < |corpus| && corpus[k] == i;
    }
    if s == Screen {
      ScreenImages(corpus, images);
    }
  }

  lemma ImageOrderIsTotal()
    ensures TotalPreorder(ImageAtMost)
  {
    forall x, y ensures ImageAtMost(x, y) || ImageAtMost(y, x) {
      StringsCompare(x.id, y.id);
    }
    forall x, y, z | ImageAtMost(x, y) && ImageAtMost(y, z) ensures ImageAtMost(x, z) {
      if x.category == y.category == z.category {
        StringsChain(x.id, y.id, z.id);
      }
    }
  }

  // The first image of a category is the least of them.
  lemma {:induction false} FirstOfIsLeast(images: seq<Image>, c: Category, i: Image)
    requires Ordered(ImageAtMost, images) && i in images && i.category == c
    ensures FirstOf(images, c).Some? && StringAtMost(FirstOf(images, c).value.id, i.id)
  {
    StringsCompare(i.id, i.id);
    if images[0].category != c {
      FirstOfIsLeast(images[1..], c, i);
    } else if images[0] != i {
      var k :| 0 < k < |images| && images[k] == i;
      assert ImageAtMost(images[0], images[k]);
    }
  }

  lemma CategoryHasImage(corpus: seq<Image>, images: seq<Image>, c: Category) returns (first: Image)
    requires BalancedCorpus(corpus) && Ordered(ImageAtMost, images)
    requires forall i :: i in images <==> i in corpus && i.split == Development
    ensures FirstOf(images, c) == Some(first) && first in images && first.category == c
    ensures forall i :: i in images && i.category == c ==> StringAtMost(first.id, i.id)
  {
    InGroupMeans(corpus, c, Development);
    FirstOfFinds(images, c);
    assert |InGroup(corpus, c, Development)| == 2;
    var example := InGroup(corpus, c, Development)[0];
    assert example in InGroup(corpus, c, Development);
    assert example in images;
    first := FirstOf(images, c).value;
    forall i | i in images && i.category == c ensures StringAtMost(first.id, i.id) {
      FirstOfIsLeast(images, c, i);
    }
  }

  lemma FourFirsts(images: seq<Image>, a: Image, b: Image, c: Image, d: Image)
    requires FirstOf(images, Sparse) == Some(a) && FirstOf(images, Cluttered) == Some(b)
    requires FirstOf(images, Workshop) == Some(c) && FirstOf(images, SyntheticPeople) == Some(d)
    ensures FirstOfEach(images, CATEGORIES[..4]) == [a, b, c, d]
  {
    hide FirstOf;
    var c4 := [SyntheticPeople];
    var c3 := [Workshop, SyntheticPeople];
    var c2 := [Cluttered, Workshop, SyntheticPeople];
    var c1 := CATEGORIES[..4];
    assert c4[1..] == [] && c3[1..] == c4 && c2[1..] == c3 && c1[1..] == c2;
    assert FirstOfEach(images, c4) == [d];
    assert FirstOfEach(images, c3) == [c] + FirstOfEach(images, c4);
    assert FirstOfEach(images, c2) == [b] + FirstOfEach(images, c3);
  }

  lemma ScreenImages(corpus: seq<Image>, images: seq<Image>)
    requires BalancedCorpus(corpus) && Ordered(ImageAtMost, images)
    requires forall i :: i in images <==> i in corpus && i.split == Development
    ensures
      var four := FirstOfEach(images, CATEGORIES[..4]);
      && |four| == 4 && (forall i :: i in four ==> i in images)
      && (forall k :: 0 <= k < 4 ==>
            && four[k].category == [Sparse, Cluttered, Workshop, SyntheticPeople][k]
            && forall i :: i in images && i.category == four[k].category ==> StringAtMost(four[k].id, i.id))
      && DistinctIds(four)
  {
    var a := CategoryHasImage(corpus, images, Sparse);
    var b := CategoryHasImage(corpus, images, Cluttered);
    var c := CategoryHasImage(corpus, images, Workshop);
    var d := CategoryHasImage(corpus, images, SyntheticPeople);
    FourFirsts(images, a, b, c, d);
    DifferentCategoriesDiffer(corpus, [a, b, c, d]);
  }

  lemma DifferentCategoriesDiffer(corpus: seq<Image>, chosen: seq<Image>)
    requires DistinctIds(corpus) && forall i :: i in chosen ==> i in corpus
    requires forall i, j :: 0 <= i < j < |chosen| ==> chosen[i].category != chosen[j].category
    ensures DistinctIds(chosen)
  {
    forall i, j | 0 <= i < j < |chosen| ensures chosen[i].id != chosen[j].id {
      assert chosen[i] in chosen && chosen[j] in chosen;
      var k :| 0 <= k < |corpus| && corpus[k] == chosen[i];
      var l :| 0 <= l < |corpus| && corpus[l] == chosen[j];
    }
  }
}
