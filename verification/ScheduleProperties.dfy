/**
 Exactness of the frozen schedule: where each request sits, that identities never
 repeat, how often each question is measured, and when arms are counterbalanced.
 */
module ScheduleProperties {
  import opened Common
  import opened Sorting
  import opened Text
  import opened Schedule

  // ----- Arm order -----

  lemma RemainderBelowTwice(x: nat, n: nat)
    requires n > 0 && x < 2 * n
    ensures x % n == if x < n then x else x - n
  {
  }

  /** Block b runs arm (b mod n + k) mod n in place k, or, when b is odd, in place n - 1 - k. */
  lemma ArmOrderAt<T>(arms: seq<T>, block: nat, k: nat)
    requires k < |arms|
    ensures ArmOrder(arms, block)[k]
              == arms[(block % |arms| + if block % 2 == 1 then |arms| - 1 - k else k) % |arms|]
  {
    var place := if block % 2 == 1 then |arms| - 1 - k else k;
    RemainderBelowTwice(block % |arms| + place, |arms|);
  }

  ghost predicate DistinctArms(arms: seq<Configuration>) {
    forall i, j :: 0 <= i < j < |arms| ==> arms[i].id != arms[j].id
  }

  /** Rotating and then reversing odd blocks changes the order only from three arms on:
      every block runs the arms in one and the same order exactly when there is at
      most one block or at most two arms. */
  lemma CounterbalancedOnlyFromThreeArms(arms: seq<Configuration>, blocks: nat)
    requires |arms| > 0 && DistinctArms(arms)
    ensures (forall b :: 0 <= b < blocks ==> ArmOrder(arms, b) == ArmOrder(arms, 0)) <==> blocks <= 1 || |arms| <= 2
  {
    hide ArmOrder;
    if blocks > 1 && |arms| > 2 {
      ThreeArmsMove(arms);
      assert 0 <= 1 < blocks;
    } else if |arms| <= 2 {
      forall b | 0 <= b < blocks ensures ArmOrder(arms, b) == ArmOrder(arms, 0) {
        TwoArmsStay(arms, b);
        TwoArmsStay(arms, 0);
      }
    }
  }

  lemma ThreeArmsMove(arms: seq<Configuration>)
    requires |arms| > 2 && DistinctArms(arms)
    ensures ArmOrder(arms, 1) != ArmOrder(arms, 0)
  {
    assert 0 % |arms| == 0 && 1 % |arms| == 1;
    assert Rotated(arms, 0) == arms;
    assert Rotated(arms, 1)[|arms| - 2] == arms[|arms| - 1];
    assert ArmOrder(arms, 1)[1] == arms[|arms| - 1];
    assert ArmOrder(arms, 0)[1] == arms[1];
  }

  lemma TwoArmsStay(arms: seq<Configuration>, block: nat)
    requires 0 < |arms| <= 2
    ensures ArmOrder(arms, block) == arms
  {
  }

  /** A holdout takes at most two finalists, so none of its five blocks is ever
      counterbalanced: each runs the finalists in the matrix's own order. */
  lemma HoldoutIsNeverCounterbalanced(matrix: seq<Configuration>, block: nat)
    requires UniqueMatrix(matrix) && Refusal(HoldoutRun, |matrix|).None?
    ensures ArmOrder(Sorted(ArmAtMost, matrix), block) == Sorted(ArmAtMost, matrix)
  {
    TwoArmsStay(Sorted(ArmAtMost, matrix), block);
  }

  // ----- Where each request sits -----

  lemma OneMore(a: nat, b: nat)
    ensures (a + 1) * b == a * b + b
  {
  }

  lemma {:induction false} LoadsLength(s: Stage, block: nat, arms: seq<Configuration>, trials: seq<Trial>)
    ensures |Loads(s, block, arms, trials)| == |arms| * |trials|
  {
    hide RequestFor;
    if arms != [] {
      LoadsLength(s, block, arms[..|arms| - 1], trials);
      OneMore(|arms| - 1, |trials|);
    }
  }

  lemma {:induction false} BlocksLength(s: Stage, blocks: nat, arms: seq<Configuration>, trials: seq<Trial>)
    requires |arms| > 0
    ensures |Blocks(s, blocks, arms, trials)| == blocks * (|arms| * |trials|)
  {
    hide Loads, ArmOrder;
    if blocks > 0 {
      BlocksLength(s, blocks - 1, arms, trials);
      LoadsLength(s, blocks - 1, ArmOrder(arms, blocks - 1), trials);
      OneMore(blocks - 1, |arms| * |trials|);
    }
  }

  lemma {:induction false} LoadsAt(s: Stage, block: nat, arms: seq<Configuration>, trials: seq<Trial>, k: nat, o: nat)
    requires k < |arms| && o < |trials|
    ensures
      var at := |Loads(s, block, arms[..k], trials)| + o;
      && at < |Loads(s, block, arms, trials)|
      && Loads(s, block, arms, trials)[at] == RequestFor(s, block, arms[k].id, trials[o], o)
  {
    hide RequestFor;
    var init := arms[..|arms| - 1];
    if k < |init| {
      assert init[..k] == arms[..k];
      LoadsAt(s, block, init, trials, k, o);
    }
  }

  lemma {:induction false} BlocksAt(s: Stage, blocks: nat, arms: seq<Configuration>, trials: seq<Trial>, b: nat, j: nat)
    requires |arms| > 0 && b < blocks && j < |Loads(s, b, ArmOrder(arms, b), trials)|
    ensures
      var at := |Blocks(s, b, arms, trials)| + j;
      && at < |Blocks(s, blocks, arms, trials)|
      && Blocks(s, blocks, arms, trials)[at] == Loads(s, b, ArmOrder(arms, b), trials)[j]
  {
    hide Loads, ArmOrder;
    if b < blocks - 1 {
      BlocksAt(s, blocks - 1, arms, trials, b, j);
    }
  }

  /** Every slot of the schedule: occurrence o of the load in place k of block b comes
      right after the earlier blocks, the earlier loads and the earlier occurrences. */
  lemma RequestAt(s: Stage, blocks: nat, arms: seq<Configuration>, trials: seq<Trial>, b: nat, k: nat, o: nat)
      returns (at: nat)
    requires b < blocks && k < |arms| && o < |trials|
    ensures at == |Blocks(s, b, arms, trials)| + |Loads(s, b, ArmOrder(arms, b)[..k], trials)| + o
    ensures at < |Blocks(s, blocks, arms, trials)|
    ensures Blocks(s, blocks, arms, trials)[at] == RequestFor(s, b, ArmOrder(arms, b)[k].id, trials[o], o)
  {
    hide *;
    var order := ArmOrder(arms, b);
    var j := |Loads(s, b, order[..k], trials)| + o;
    LoadsAt(s, b, order, trials, k, o);
    BlocksAt(s, blocks, arms, trials, b, j);
    at := |Blocks(s, b, arms, trials)| + j;
  }

  /** Every request of the schedule, for each of the one, three, five or one blocks: load k
      of block b starts with exactly two warm-ups, questions 1 and 2 on the stage's first
      image; then come questions 1 to 7 of each image in turn, a sustained load starting
      over when the images are used up. */
  lemma EveryLoadWarmsUpTwice(corpus: seq<Image>, matrix: seq<Configuration>, s: Stage, b: nat, k: nat, o: nat)
      returns (at: nat)
    requires BalancedCorpus(corpus) && UniqueMatrix(matrix) && Refusal(s, |matrix|).None?
    requires b < match s case Screen => 1 case DevelopmentRun => 3 case HoldoutRun => 5 case Sustained => 1
    requires k < |matrix| && |ImagesFor(corpus, s)| > 0
    requires o < |TrialsFor(ImagesFor(corpus, s), s)|
    ensures
      var trials := TrialsFor(ImagesFor(corpus, s), s);
      var arms := Sorted(ArmAtMost, matrix);
      at == |Blocks(s, b, arms, trials)| + |Loads(s, b, ArmOrder(arms, b)[..k], trials)| + o
    ensures at < |Requests(corpus, matrix, s)|
    ensures
      var r, images := Requests(corpus, matrix, s)[at], ImagesFor(corpus, s);
      var image := if o < 2 then images[0] else images[((o - 2) / 7) % |images|];
      && r.block == b && r.repetition == b + 1
      && r.arm == ArmOrder(Sorted(ArmAtMost, matrix), b)[k].id
      && (r.warmup <==> o < 2)
      && r.question == (if o < 2 then o + 1 else (o - 2) % 7 + 1)
      && r.imageId == image.id && r.imageSha256 == image.sha256
  {
    hide Blocks, ArmOrder, ImagesFor, Identity;
    var trials := TrialsFor(ImagesFor(corpus, s), s);
    StageImages(corpus, s);
    at := RequestAt(s, Repetitions(s), Sorted(ArmAtMost, matrix), trials, b, k, o);
    TrialAt(ImagesFor(corpus, s), s, o);
  }

  // ----- Identities never repeat -----

  lemma NamesHaveNoSeparator(s: Stage, arm: ArmId, n: nat, warmup: bool)
    ensures ':' !in StageName(s) && ':' !in ArmName(arm) && ':' !in Decimal(n)
    ensures ':' !in "q" + Decimal(n) && ':' !in (if warmup then "True" else "False")
  {
  }

  lemma CutText(a: string, b: string, a': string, b': string)
    requires ':' !in a && ':' !in a' && a + ":" + b == a' + ":" + b'
    ensures a == a' && b == b'
  {
    CutIsUnique(a, b, a', b', ':');
  }

  lemma StageNamesDiffer(s: Stage, s': Stage)
    ensures StageName(s) == StageName(s') ==> s == s'
  {
  }

  lemma ArmNamesDiffer(arm: ArmId, arm': ArmId)
    ensures ArmName(arm) == ArmName(arm') ==> arm == arm'
  {
  }

  /** The identity text determines all it is made of. */
  lemma IdentityDetermines(s: Stage, block: nat, arm: ArmId, imageId: string, question: nat, warmup: bool,
      occurrence: nat,
      s': Stage, block': nat, arm': ArmId, imageId': string, question': nat, warmup': bool, occurrence': nat)
    requires WellFormedId(imageId) && WellFormedId(imageId')
    requires Identity(s, block, arm, imageId, question, warmup, occurrence)
          == Identity(s', block', arm', imageId', question', warmup', occurrence')
    ensures s == s' && block == block' && arm == arm' && imageId == imageId'
    ensures question == question' && warmup == warmup' && occurrence == occurrence'
  {
    NamesHaveNoSeparator(s, arm, block, warmup);
    NamesHaveNoSeparator(s', arm', block', warmup');
    NamesHaveNoSeparator(s, arm, question + 1, warmup);
    NamesHaveNoSeparator(s', arm', question' + 1, warmup');
    var w, w' := if warmup then "True" else "False", if warmup' then "True" else "False";
    var t5, t5' := w + ":" + Decimal(occurrence), w' + ":" + Decimal(occurrence');
    var t4, t4' := "q" + Decimal(question + 1) + ":" + t5, "q" + Decimal(question' + 1) + ":" + t5';
    var t3, t3' := imageId + ":" + t4, imageId' + ":" + t4';
    var t2, t2' := ArmName(arm) + ":" + t3, ArmName(arm') + ":" + t3';
    var t1, t1' := Decimal(block) + ":" + t2, Decimal(block') + ":" + t2';
    assert Identity(s, block, arm, imageId, question, warmup, occurrence) == StageName(s) + ":" + t1;
    assert Identity(s', block', arm', imageId', question', warmup', occurrence') == StageName(s') + ":" + t1';
    CutText(StageName(s), t1, StageName(s'), t1');
    CutText(Decimal(block), t2, Decimal(block'), t2');
    CutText(ArmName(arm), t3, ArmName(arm'), t3');
    CutText(imageId, t4, imageId', t4');
    CutText("q" + Decimal(question + 1), t5, "q" + Decimal(question' + 1), t5');
    CutText(w, Decimal(occurrence), w', Decimal(occurrence'));
    DecimalIsInjective(block, block');
    DecimalIsInjective(occurrence, occurrence');
    StageNamesDiffer(s, s');
    ArmNamesDiffer(arm, arm');
    var q, q' := Decimal(question + 1), Decimal(question' + 1);
    assert ("q" + q)[1..] == q && ("q" + q')[1..] == q';
    DecimalIsInjective(question + 1, question' + 1);
  }

  ghost predicate DistinctRequests(requests: seq<Request>) {
    forall i, j :: 0 <= i < j < |requests| ==> requests[i].id != requests[j].id
  }

  ghost predicate TrialsNamed(trials: seq<Trial>) {
    forall i :: 0 <= i < |trials| ==> WellFormedId(trials[i].image.id)
  }

  // The request was issued at some occurrence of its own block and arm.
  ghost predicate Issued(s: Stage, r: Request) {
    exists t: Trial, o: nat :: WellFormedId(t.image.id) && r == RequestFor(s, r.block, r.arm, t, o)
  }

  lemma IssuedApart(s: Stage, q: Request, r: Request)
    requires Issued(s, q) && Issued(s, r) && (q.block != r.block || q.arm != r.arm)
    ensures q.id != r.id
  {
    hide Identity;
    var t: Trial, o: nat :| WellFormedId(t.image.id) && q == RequestFor(s, q.block, q.arm, t, o);
    var t': Trial, o': nat :| WellFormedId(t'.image.id) && r == RequestFor(s, r.block, r.arm, t', o');
    if q.id == r.id {
      IdentityDetermines(s, q.block, q.arm, t.image.id, t.question, t.warmup, o,
                         s, r.block, r.arm, t'.image.id, t'.question, t'.warmup, o');
    }
  }

  lemma LoadIsDistinct(s: Stage, block: nat, arm: ArmId, trials: seq<Trial>)
    requires TrialsNamed(trials)
    ensures DistinctRequests(Load(s, block, arm, trials))
    ensures forall r :: r in Load(s, block, arm, trials) ==> Issued(s, r) && r.block == block && r.arm == arm
  {
    hide Identity;
    var requests := Load(s, block, arm, trials);
    forall i, j | 0 <= i < j < |requests| ensures requests[i].id != requests[j].id {
      if requests[i].id == requests[j].id {
        var t, t' := trials[i], trials[j];
        IdentityDetermines(s, block, arm, t.image.id, t.question, t.warmup, i,
                           s, block, arm, t'.image.id, t'.question, t'.warmup, j);
      }
    }
    forall r | r in requests ensures Issued(s, r) && r.block == block && r.arm == arm {
      var o :| 0 <= o < |requests| && requests[o] == r;
      assert r == RequestFor(s, r.block, r.arm, trials[o], o);
    }
  }

  lemma DistinctJoin(a: seq<Request>, b: seq<Request>)
    requires DistinctRequests(a) && DistinctRequests(b)
    requires forall q, r :: q in a && r in b ==> q.id != r.id
    ensures DistinctRequests(a + b)
  {
  }

  lemma {:induction false} LoadsAreDistinct(s: Stage, block: nat, arms: seq<Configuration>, trials: seq<Trial>)
    requires TrialsNamed(trials) && DistinctArms(arms)
    ensures DistinctRequests(Loads(s, block, arms, trials))
    ensures forall r :: r in Loads(s, block, arms, trials) ==>
              Issued(s, r) && r.block == block && exists k :: 0 <= k < |arms| && arms[k].id == r.arm
  {
    hide Load, Issued;
    if arms != [] {
      var init := arms[..|arms| - 1];
      var before, load := Loads(s, block, init, trials), Load(s, block, Last(arms).id, trials);
      LoadsAreDistinct(s, block, init, trials);
      LoadIsDistinct(s, block, Last(arms).id, trials);
      forall q, r | q in before && r in load ensures q.id != r.id {
        var k :| 0 <= k < |init| && init[k].id == q.arm;
        assert arms[k].id != Last(arms).id;
        IssuedApart(s, q, r);
      }
      DistinctJoin(before, load);
      forall r | r in before ensures exists k :: 0 <= k < |arms| && arms[k].id == r.arm {
        var k :| 0 <= k < |init| && init[k].id == r.arm;
        assert arms[k].id == r.arm;
      }
      assert forall r :: r in load ==> arms[|arms| - 1].id == r.arm;
    }
  }

  lemma ArmOrderIsDistinct(arms: seq<Configuration>, block: nat)
    requires |arms| > 0 && DistinctArms(arms)
    ensures DistinctArms(ArmOrder(arms, block))
  {
    var rotated := Rotated(arms, block);
    assert DistinctArms(rotated);
  }

  lemma {:induction false} BlocksAreDistinct(s: Stage, blocks: nat, arms: seq<Configuration>, trials: seq<Trial>)
    requires |arms| > 0 && TrialsNamed(trials) && DistinctArms(arms)
    ensures DistinctRequests(Blocks(s, blocks, arms, trials))
    ensures forall r :: r in Blocks(s, blocks, arms, trials) ==> Issued(s, r) && r.block < blocks
  {
    hide Loads, Issued, ArmOrder;
    if blocks > 0 {
      var before := Blocks(s, blocks - 1, arms, trials);
      var block := Loads(s, blocks - 1, ArmOrder(arms, blocks - 1), trials);
      BlocksAreDistinct(s, blocks - 1, arms, trials);
      ArmOrderIsDistinct(arms, blocks - 1);
      LoadsAreDistinct(s, blocks - 1, ArmOrder(arms, blocks - 1), trials);
      forall q, r | q in before && r in block ensures q.id != r.id {
        IssuedApart(s, q, r);
      }
      DistinctJoin(before, block);
    }
  }

  lemma SortedArmsAreDistinct(matrix: seq<Configuration>)
    requires UniqueMatrix(matrix)
    ensures DistinctArms(Sorted(ArmAtMost, matrix))
    ensures forall c :: c in Sorted(ArmAtMost, matrix) <==> c in matrix
  {
    SortedHasSameElements(ArmAtMost, matrix);
    SortedIsPermutation(ArmAtMost, matrix);
    DistinctArmsSurvive(matrix, Sorted(ArmAtMost, matrix));
  }

  lemma DistinctArmsSurvive(a: seq<Configuration>, b: seq<Configuration>)
    requires DistinctArms(a) && multiset(a) == multiset(b)
    ensures DistinctArms(b)
  {
    NoRepeatsSurvives(a, b);
    forall i, j | 0 <= i < j < |b| ensures b[i].id != b[j].id {
      assert b[i] in multiset(a) && b[j] in multiset(a);
      var k :| 0 <= k < |a| && a[k] == b[i];
      var l :| 0 <= l < |a| && a[l] == b[j];
    }
  }

  lemma TrialsAreNamed(corpus: seq<Image>, s: Stage)
    requires BalancedCorpus(corpus)
    ensures |ImagesFor(corpus, s)| > 0 && TrialsNamed(TrialsFor(ImagesFor(corpus, s), s))
  {
    hide ImagesFor;
    StageImages(corpus, s);
    var images := ImagesFor(corpus, s);
    forall i | 0 <= i < |TrialsFor(images, s)| ensures WellFormedId(TrialsFor(images, s)[i].image.id) {
      TrialAt(images, s, i);
    }
  }

  /** Request identities are distinct across the whole schedule. */
  lemma IdentitiesAreDistinct(corpus: seq<Image>, matrix: seq<Configuration>, s: Stage)
    requires BalancedCorpus(corpus) && UniqueMatrix(matrix)
    ensures |ImagesFor(corpus, s)| > 0 && DistinctRequests(Requests(corpus, matrix, s))
  {
    TrialsAreNamed(corpus, s);
    SortedArmsAreDistinct(matrix);
    BlocksAreDistinct(s, Repetitions(s), Sorted(ArmAtMost, matrix), TrialsFor(ImagesFor(corpus, s), s));
  }
}
