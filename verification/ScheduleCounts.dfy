/**
 How often the schedule measures each question, and why the schedule does not depend
 on the order in which the corpus and the matrix are written down.
 */
module ScheduleCounts {
  import opened Common
  import opened Sorting
  import opened Text
  import opened Schedule
  import opened ScheduleProperties

  // ----- Counting measurements -----

  predicate Measures(r: Request, arm: ArmId, imageId: string, question: nat) {
    !r.warmup && r.arm == arm && r.imageId == imageId && r.question == question
  }

  function Count(requests: seq<Request>, arm: ArmId, imageId: string, question: nat): nat {
    if requests == [] then 0
    else Count(requests[..|requests| - 1], arm, imageId, question)
         + if Measures(Last(requests), arm, imageId, question) then 1 else 0
  }

  function CountTrials(trials: seq<Trial>, imageId: string, question: nat): nat {
    if trials == [] then 0
    else CountTrials(trials[..|trials| - 1], imageId, question)
         + if !Last(trials).warmup && Last(trials).image.id == imageId && Last(trials).question + 1 == question
           then 1 else 0
  }

  lemma {:induction false} CountJoins(a: seq<Request>, b: seq<Request>, arm: ArmId, imageId: string, question: nat)
    ensures Count(a + b, arm, imageId, question) == Count(a, arm, imageId, question) + Count(b, arm, imageId, question)
  {
    if b == [] {
      assert a + b == a;
    } else {
      var init := b[..|b| - 1];
      CountJoins(a, init, arm, imageId, question);
      assert (a + b)[..|a + b| - 1] == a + init;
    }
  }

  lemma {:induction false} CountTrialsJoins(a: seq<Trial>, b: seq<Trial>, imageId: string, question: nat)
    ensures CountTrials(a + b, imageId, question)
      == CountTrials(a, imageId, question) + CountTrials(b, imageId, question)
  {
    if b == [] {
      assert a + b == a;
    } else {
      var init := b[..|b| - 1];
      CountTrialsJoins(a, init, imageId, question);
      assert (a + b)[..|a + b| - 1] == a + init;
    }
  }

  lemma {:induction false} CountLoad(s: Stage, block: nat, a: ArmId, trials: seq<Trial>, arm: ArmId, imageId: string,
      question: nat)
    ensures Count(Load(s, block, a, trials), arm, imageId, question)
              == if a == arm then CountTrials(trials, imageId, question) else 0
  {
    hide Identity;
    if trials != [] {
      var init := trials[..|trials| - 1];
      CountLoad(s, block, a, init, arm, imageId, question);
      assert Load(s, block, a, trials)[..|trials| - 1] == Load(s, block, a, init);
    }
  }

  // How many of these arms are the given one.
  function ArmsNamed(arms: seq<Configuration>, arm: ArmId): nat {
    if arms == [] then 0 else ArmsNamed(arms[..|arms| - 1], arm) + if Last(arms).id == arm then 1 else 0
  }

  lemma {:induction false} CountLoads(s: Stage, block: nat, arms: seq<Configuration>, trials: seq<Trial>, arm: ArmId,
      imageId: string, question: nat)
    requires ArmsNamed(arms, arm) <= 1
    ensures Count(Loads(s, block, arms, trials), arm, imageId, question)
              == if ArmsNamed(arms, arm) == 1 then CountTrials(trials, imageId, question) else 0
  {
    hide Load, CountTrials;
    if arms != [] {
      var init := arms[..|arms| - 1];
      CountLoads(s, block, init, trials, arm, imageId, question);
      CountLoad(s, block, Last(arms).id, trials, arm, imageId, question);
      CountJoins(Loads(s, block, init, trials), Load(s, block, Last(arms).id, trials), arm, imageId, question);
    }
  }

  lemma {:induction false} NamedOnce(arms: seq<Configuration>, arm: ArmId)
    requires DistinctArms(arms)
    ensures ArmsNamed(arms, arm) == if exists c :: c in arms && c.id == arm then 1 else 0
  {
    if arms != [] {
      var init, last := arms[..|arms| - 1], Last(arms);
      NamedOnce(init, arm);
      assert last in arms && forall c :: c in arms <==> c in init || c == last;
      forall c | c in init ensures c.id != last.id {
        var k :| 0 <= k < |init| && init[k] == c;
        assert arms[k].id != arms[|arms| - 1].id;
      }
    }
  }

  lemma {:induction false} CountBlocks(s: Stage, blocks: nat, arms: seq<Configuration>, trials: seq<Trial>,
      arm: Configuration, imageId: string, question: nat)
    requires |arms| > 0 && DistinctArms(arms) && arm in arms
    ensures Count(Blocks(s, blocks, arms, trials), arm.id, imageId, question)
      == blocks * CountTrials(trials, imageId, question)
  {
    hide Loads, ArmOrder, CountTrials;
    if blocks > 0 {
      var order := ArmOrder(arms, blocks - 1);
      CountBlocks(s, blocks - 1, arms, trials, arm, imageId, question);
      ArmOrderIsDistinct(arms, blocks - 1);
      ArmOrderKeepsArms(arms, blocks - 1);
      NamedOnce(order, arm.id);
      CountLoads(s, blocks - 1, order, trials, arm.id, imageId, question);
      CountJoins(Blocks(s, blocks - 1, arms, trials), Loads(s, blocks - 1, order, trials), arm.id, imageId, question);
      OneMore(blocks - 1, CountTrials(trials, imageId, question));
    }
  }

  // ----- Counting the trials of one load -----

  lemma {:induction false} CountQuestions(image: Image, n: nat, imageId: string, question: nat)
    requires n <= 7
    ensures CountTrials(QuestionsOf(image)[..n], imageId, question)
              == if image.id == imageId && 1 <= question <= n then 1 else 0
  {
    if n > 0 {
      CountQuestions(image, n - 1, imageId, question);
      assert QuestionsOf(image)[..n][..n - 1] == QuestionsOf(image)[..n - 1];
    }
  }

  lemma {:induction false} CountMeasured(images: seq<Image>, imageId: string, question: nat)
    requires DistinctIds(images) && 1 <= question <= 7
    ensures CountTrials(MeasuredTrials(images), imageId, question)
              == if exists i :: i in images && i.id == imageId then 1 else 0
    ensures |MeasuredTrials(images)| == 7 * |images|
  {
    hide CountTrials, QuestionsOf;
    if images == [] {
      NoTrials(imageId, question);
    } else {
      CountMeasured(images[1..], imageId, question);
      CountQuestions(images[0], 7, imageId, question);
      SevenQuestions(images[0]);
      CountTrialsJoins(QuestionsOf(images[0]), MeasuredTrials(images[1..]), imageId, question);
      assert images == [images[0]] + images[1..];
      if images[0].id == imageId {
        forall i | i in images[1..] ensures i.id != imageId {
          var k :| 0 <= k < |images[1..]| && images[1..][k] == i;
          assert images[k + 1].id != images[0].id;
        }
      }
    }
  }

  lemma NoTrials(imageId: string, question: nat)
    ensures CountTrials([], imageId, question) == 0
  {
  }

  lemma SevenQuestions(image: Image)
    ensures |QuestionsOf(image)| == 7 && QuestionsOf(image)[..7] == QuestionsOf(image)
  {
  }

  lemma CountWarmups(image: Image, imageId: string, question: nat)
    ensures CountTrials([Trial(image, 0, true), Trial(image, 1, true)], imageId, question) == 0
  {
    var first := [Trial(image, 0, true)];
    assert CountTrials(first, imageId, question) == 0;
    assert [Trial(image, 0, true), Trial(image, 1, true)][..1] == first;
  }

  // A sustained load is two full passes and the first two images once more.
  lemma SustainedTrials(images: seq<Image>)
    requires |images| == 14 && DistinctIds(images)
    ensures
      var m := MeasuredTrials(images);
      FirstUpTo(m + m + m, 210) == m + m + MeasuredTrials(images[..2])
  {
    hide QuestionsOf;
    var m := MeasuredTrials(images);
    CountMeasured(images, "", 1);
    SevenQuestions(images[0]);
    SevenQuestions(images[1]);
    var rest := images[1..];
    assert m == QuestionsOf(images[0]) + MeasuredTrials(rest);
    assert MeasuredTrials(rest) == QuestionsOf(rest[0]) + MeasuredTrials(rest[1..]);
    var two := images[..2];
    var one := [images[1]];
    assert two[1..] == one && one[1..] == [];
    assert MeasuredTrials(one) == QuestionsOf(images[1]) + MeasuredTrials([]);
    assert MeasuredTrials(two) == QuestionsOf(images[0]) + MeasuredTrials(one);
    assert m[..14] == MeasuredTrials(two);
  }

  lemma CountStageTrials(images: seq<Image>, s: Stage, image: Image, question: nat)
    requires |images| == (if s == Screen then 4 else 14) && DistinctIds(images) && image in images && 1 <= question <= 7
    ensures CountTrials(TrialsFor(images, s), image.id, question)
              == if s != Sustained then 1 else if image in images[..2] then 3 else 2
    ensures |TrialsFor(images, s)| == 2 + if s == Sustained then 210 else 7 * |images|
  {
    hide CountTrials, MeasuredTrials;
    var id := image.id;
    var m := MeasuredTrials(images);
    CountMeasured(images, id, question);
    CountWarmups(images[0], id, question);
    var warm := [Trial(images[0], 0, true), Trial(images[0], 1, true)];
    if s == Sustained {
      var two := images[..2];
      CountMeasured(two, id, question);
      SustainedTrials(images);
      CountTrialsJoins(m, m, id, question);
      CountTrialsJoins(m + m, MeasuredTrials(two), id, question);
      CountTrialsJoins(warm, m + m + MeasuredTrials(two), id, question);
      if exists i :: i in two && i.id == id {
        var i :| i in two && i.id == id;
      }
    } else {
      CountTrialsJoins(warm, m, id, question);
    }
  }

  /** Each arm measures each question on each image of the stage once in a screen, three
      times in a development and five times in a holdout run; a sustained run measures it
      twice, and a third time on the first two images, which makes 210 measured requests. */
  lemma EveryQuestionIsMeasured(corpus: seq<Image>, matrix: seq<Configuration>, s: Stage,
                                arm: Configuration, image: Image, question: nat)
    requires BalancedCorpus(corpus) && UniqueMatrix(matrix) && Refusal(s, |matrix|).None?
    requires arm in matrix && image in ImagesFor(corpus, s) && 1 <= question <= 7
    ensures |ImagesFor(corpus, s)| == if s == Screen then 4 else 14
    ensures Count(Requests(corpus, matrix, s), arm.id, image.id, question)
      == match s
         case Screen => 1
         case DevelopmentRun => 3
         case HoldoutRun => 5
         case Sustained => if image in ImagesFor(corpus, s)[..2] then 3 else 2
    ensures |Requests(corpus, matrix, s)|
      == match s
         case Screen => |matrix| * 30
         case DevelopmentRun => 3 * (|matrix| * 100)
         case HoldoutRun => 5 * (|matrix| * 100)
         case Sustained => 212
  {
    hide Blocks, ImagesFor, TrialsFor, Count, CountTrials;
    StageImages(corpus, s);
    SortedArmsAreDistinct(matrix);
    var images := ImagesFor(corpus, s);
    var trials := TrialsFor(images, s);
    CountStageTrials(images, s, image, question);
    CountBlocks(s, Repetitions(s), Sorted(ArmAtMost, matrix), trials, arm, image.id, question);
    BlocksLength(s, Repetitions(s), Sorted(ArmAtMost, matrix), trials);
  }

  // ----- Listing order does not matter -----

  lemma {:induction false} OfSplitCounts(images: seq<Image>, s: Split, x: Image)
    ensures multiset(OfSplit(images, s))[x] == if x.split == s then multiset(images)[x] else 0
  {
    if images != [] {
      OfSplitCounts(images[1..], s, x);
      assert images == [images[0]] + images[1..];
    }
  }

  /** The schedule is a function of the corpus and the matrix as sets: listing the same
      images or configurations in another order freezes the same requests. */
  lemma ScheduleIgnoresListingOrder(corpus: seq<Image>, corpus': seq<Image>,
                                    matrix: seq<Configuration>, matrix': seq<Configuration>, s: Stage)
    requires BalancedCorpus(corpus) && multiset(corpus) == multiset(corpus')
    requires UniqueMatrix(matrix) && multiset(matrix) == multiset(matrix')
    ensures |ImagesFor(corpus, s)| > 0 && |ImagesFor(corpus', s)| > 0 && |matrix'| > 0
    ensures Requests(corpus, matrix, s) == Requests(corpus', matrix', s)
  {
    hide Blocks, TrialsFor;
    var split := SplitFor(s);
    assert |matrix| == |multiset(matrix)| == |multiset(matrix')| == |matrix'|;
    StageImages(corpus, s);
    ImageOrderIsTotal();
    assert multiset(OfSplit(corpus, split)) == multiset(OfSplit(corpus', split)) by {
      forall x ensures multiset(OfSplit(corpus, split))[x] == multiset(OfSplit(corpus', split))[x] {
        OfSplitCounts(corpus, split, x);
        OfSplitCounts(corpus', split, x);
      }
    }
    ImagesUntied(corpus, split);
    SortedIsCanonical(ImageAtMost, OfSplit(corpus, split), OfSplit(corpus', split));
    ArmsUntied(matrix);
    SortedIsCanonical(ArmAtMost, matrix, matrix');
  }

  lemma ImagesUntied(corpus: seq<Image>, s: Split)
    requires DistinctIds(corpus)
    ensures Untied(ImageAtMost, OfSplit(corpus, s))
  {
    OfSplitKeeps(corpus, s);
    forall x, y | x in OfSplit(corpus, s) && y in OfSplit(corpus, s) && ImageAtMost(x, y) && ImageAtMost(y, x)
      ensures x == y
    {
      StringsCompare(x.id, y.id);
    }
  }

  lemma ArmsUntied(matrix: seq<Configuration>)
    requires UniqueMatrix(matrix)
    ensures Untied(ArmAtMost, matrix)
  {
  }
}
