/**
 * The interview-round board of a job post: named buckets of applicants that
 * the recruiter moves cards between by drag and drop, plus the list of round
 * configurations (title, interviewer, venue, ...) that can be edited in
 * place and extended with new rounds keyed `round<N+1>`.
 */
module InterviewRounds {
  import opened Wrappers
  import opened Seqs
  import opened InterviewTypes
  import Decimal

  datatype Applicant = Applicant(id: string, name: string, matchScore: int)

  function ApplicantId(a: Applicant): string {
    a.id
  }

  /** One round's configuration as the board shows it. */
  datatype RoundConfig = RoundConfig(
    key: string, title: string, color: string,
    interviewer: string, venue: string, duration: string, interviewType: InterviewType)

  /** `Partial<InterviewRound>`: the edit form; a `Some` field overrides the round's. */
  datatype RoundEdit = RoundEdit(
    key: Option<string>, title: Option<string>, color: Option<string>,
    interviewer: Option<string>, venue: Option<string>, duration: Option<string>,
    interviewType: Option<InterviewType>)

  const NoEdit := RoundEdit(None, None, None, None, None, None, None)

  /** The text fields of the edit form that have an input box. */
  datatype EditField = TitleField | InterviewerField | VenueField | DurationField

  /** The edit form filled from a round (`setEditForm(round)`). */
  function EditOf(r: RoundConfig): (e: RoundEdit)
    ensures Merge(r, e) == r
  {
    RoundEdit(Some(r.key), Some(r.title), Some(r.color), Some(r.interviewer),
              Some(r.venue), Some(r.duration), Some(r.interviewType))
  }

  /** `{ ...round, ...editForm }`. */
  function Merge(r: RoundConfig, e: RoundEdit): RoundConfig {
    RoundConfig(
      e.key.GetOr(r.key), e.title.GetOr(r.title), e.color.GetOr(r.color),
      e.interviewer.GetOr(r.interviewer), e.venue.GetOr(r.venue),
      e.duration.GetOr(r.duration), e.interviewType.GetOr(r.interviewType))
  }

  /** The add-round form. */
  datatype NewRoundForm = NewRoundForm(
    title: string, interviewer: string, venue: string, duration: string,
    interviewType: InterviewType, color: string)

  const EmptyNewRoundForm := NewRoundForm("", "", "", "", Technical, "bg-purple-50 border-purple-200")

  /** The key given to the n-th round: `round${n}`. */
  function RoundKey(n: nat): string {
    "round" + Decimal.ToDecimal(n)
  }

  /** Distinct round numbers give distinct keys. */
  lemma RoundKeyInjective(a: nat, b: nat)
    ensures RoundKey(a) == RoundKey(b) <==> a == b
  {
    if RoundKey(a) == RoundKey(b) {
      assert RoundKey(a)[5..] == Decimal.ToDecimal(a);
      assert RoundKey(b)[5..] == Decimal.ToDecimal(b);
      Decimal.ToDecimalInjective(a, b);
    }
  }

  /** The keys `round1, ..., round<n>`, in order. */
  function KeySeq(n: nat): (ks: seq<string>)
    ensures |ks| == n
    ensures forall i :: 0 <= i < n ==> ks[i] == RoundKey(i + 1)
  {
    seq(n, i requires 0 <= i < n => RoundKey(i + 1))
  }

  /** The keys `round1..round<n>` are pairwise distinct and never include `round<n+1>`. */
  lemma KeySeqFresh(n: nat)
    ensures NoDuplicates(KeySeq(n))
    ensures RoundKey(n + 1) !in KeySeq(n)
    ensures KeySeq(n + 1) == KeySeq(n) + [RoundKey(n + 1)]
  {
    forall i, j | 0 <= i < j < n ensures KeySeq(n)[i] != KeySeq(n)[j] {
      RoundKeyInjective(i + 1, j + 1);
    }
    forall i | 0 <= i < n ensures KeySeq(n)[i] != RoundKey(n + 1) {
      RoundKeyInjective(i + 1, n + 1);
    }
  }

  /** The round configuration the component starts with. */
  const DefaultConfig: seq<RoundConfig> := [
    RoundConfig("round1", "Initial Screening", "bg-blue-50 border-blue-200",
                "HR Team", "Conference Room A", "30 minutes", Behavioral),
    RoundConfig("round2", "Technical Interview", "bg-yellow-50 border-yellow-200",
                "Tech Lead", "Meeting Room B", "60 minutes", Technical),
    RoundConfig("round3", "Final Interview", "bg-green-50 border-green-200",
                "CTO", "Executive Office", "45 minutes", Final)
  ]

  /** The keys of a configuration list, in order. */
  function ConfigKeys(config: seq<RoundConfig>): (ks: seq<string>)
    ensures |ks| == |config|
    ensures forall i :: 0 <= i < |config| ==> ks[i] == config[i].key
  {
    seq(|config|, i requires 0 <= i < |config| => config[i].key)
  }

  /**
   * What `handleDrop` does to the buckets: the source bucket loses every
   * entry with the dragged id, then the target bucket (read from the state
   * BEFORE the removal) gets the dragged record appended. When source and
   * target coincide the second write wins.
   */
  function Drop(rounds: map<string, seq<Applicant>>, item: Applicant, source: string, target: string)
    : map<string, seq<Applicant>>
    requires source in rounds && target in rounds
  {
    rounds[source := WithoutKey(rounds[source], ApplicantId, item.id)][target := rounds[target] + [item]]
  }

  /**
   * Between two different rounds: every entry with the dragged id leaves the
   * source, the others keep their order and multiplicity; the dragged record
   * is appended once to the end of the target; no other bucket changes.
   */
  lemma DropBetweenRounds(rounds: map<string, seq<Applicant>>, item: Applicant, source: string, target: string)
    requires source in rounds && target in rounds && source != target
    ensures Drop(rounds, item, source, target).Keys == rounds.Keys
    ensures forall a: Applicant :: a in Drop(rounds, item, source, target)[source] ==> a.id != item.id
    ensures Subseq(Drop(rounds, item, source, target)[source], rounds[source])
    ensures forall a: Applicant :: a.id != item.id ==>
      multiset(Drop(rounds, item, source, target)[source])[a] == multiset(rounds[source])[a]
    ensures Drop(rounds, item, source, target)[target] == rounds[target] + [item]
    ensures forall k :: k in rounds && k != source && k != target ==>
      Drop(rounds, item, source, target)[k] == rounds[k]
  {
    var r := Drop(rounds, item, source, target);
    forall a: Applicant | a in r[source] ensures a.id != item.id {
      var i :| 0 <= i < |r[source]| && r[source][i] == a;
    }
  }

  /** Dropping onto the round the card came from appends it a second time. */
  lemma DropOntoSameRound(rounds: map<string, seq<Applicant>>, item: Applicant, round: string)
    requires round in rounds
    ensures Drop(rounds, item, round, round) == rounds[round := rounds[round] + [item]]
  {
  }

  /** A card whose id is not in the source is still appended to a different target. */
  lemma DropAbsentItem(rounds: map<string, seq<Applicant>>, item: Applicant, source: string, target: string)
    requires source in rounds && target in rounds && source != target
    requires CountKey(rounds[source], ApplicantId, item.id) == 0
    ensures Drop(rounds, item, source, target)[source] == rounds[source]
    ensures Drop(rounds, item, source, target)[target] == rounds[target] + [item]
  {
    var s := rounds[source];
    var w := WithoutKey(s, ApplicantId, item.id);
    SubseqBounds(w, s);
    SubseqEqualLength(w, s);
  }

  /** A subsequence of the same length is the sequence itself. */
  lemma {:induction false} SubseqEqualLength(a: seq<Applicant>, b: seq<Applicant>)
    requires Subseq(a, b) && |a| == |b|
    ensures a == b
    decreases |b|
  {
    if a != [] {
      if a[0] == b[0] && Subseq(a[1..], b[1..]) {
        SubseqEqualLength(a[1..], b[1..]);
        assert a == [a[0]] + a[1..] && b == [b[0]] + b[1..];
      } else {
        SubseqBounds(a, b[1..]);
      }
    }
  }

  /** The number of cards on the board, summed over the given keys. */
  function Total(rounds: map<string, seq<Applicant>>, keys: seq<string>): nat
    requires forall i :: 0 <= i < |keys| ==> keys[i] in rounds
    decreases |keys|
  {
    if keys == [] then 0 else |rounds[keys[0]]| + Total(rounds, keys[1..])
  }

  /** Replacing one bucket changes the total by the change in that bucket's size. */
  lemma {:induction false} TotalUpdate(rounds: map<string, seq<Applicant>>, k: string, v: seq<Applicant>, keys: seq<string>)
    requires forall i :: 0 <= i < |keys| ==> keys[i] in rounds
    requires k in rounds && NoDuplicates(keys)
    ensures Total(rounds[k := v], keys) + (if k in keys then |rounds[k]| else 0)
         == Total(rounds, keys) + (if k in keys then |v| else 0)
    decreases |keys|
  {
    if keys != [] {
      assert NoDuplicates(keys[1..]) by {
        forall i, j | 0 <= i < j < |keys[1..]| ensures keys[1..][i] != keys[1..][j] {
          assert keys[1..][i] == keys[i + 1] && keys[1..][j] == keys[j + 1];
        }
      }
      TotalUpdate(rounds, k, v, keys[1..]);
      if keys[0] == k {
        assert k !in keys[1..] by {
          forall j | 0 <= j < |keys[1..]| ensures keys[1..][j] != k {
            assert keys[1..][j] == keys[j + 1];
          }
        }
      } else {
        assert k in keys <==> k in keys[1..] by {
          assert keys == [keys[0]] + keys[1..];
        }
      }
    }
  }

  /**
   * Moving a card that occurs exactly once in its source to a different
   * round keeps the number of cards on the board.
   */
  lemma DropPreservesTotal(rounds: map<string, seq<Applicant>>, item: Applicant, source: string, target: string, keys: seq<string>)
    requires forall i :: 0 <= i < |keys| ==> keys[i] in rounds
    requires NoDuplicates(keys) && source in keys && target in keys && source != target
    requires source in rounds && target in rounds
    requires CountKey(rounds[source], ApplicantId, item.id) == 1
    ensures Total(Drop(rounds, item, source, target), keys) == Total(rounds, keys)
  {
    var a := WithoutKey(rounds[source], ApplicantId, item.id);
    var mid := rounds[source := a];
    TotalUpdate(rounds, source, a, keys);
    TotalUpdate(mid, target, rounds[target] + [item], keys);
  }

  /** `saveRoundEdit`: the edit is merged into the rounds whose key is the edited key. */
  function SaveEdit(config: seq<RoundConfig>, editing: string, edit: RoundEdit): (r: seq<RoundConfig>)
    ensures |r| == |config|
  {
    seq(|config|, i requires 0 <= i < |config| => if config[i].key == editing then Merge(config[i], edit) else config[i])
  }

  /**
   * Saving an edit whose key is unset or is the edited key changes no key,
   * and no round other than the edited one.
   */
  lemma SaveEditKeepsKeys(config: seq<RoundConfig>, editing: string, edit: RoundEdit)
    requires edit.key.None? || edit.key == Some(editing)
    ensures ConfigKeys(SaveEdit(config, editing, edit)) == ConfigKeys(config)
    ensures forall i :: 0 <= i < |config| && config[i].key != editing ==> SaveEdit(config, editing, edit)[i] == config[i]
    ensures forall i :: 0 <= i < |config| && config[i].key == editing ==> SaveEdit(config, editing, edit)[i] == Merge(config[i], edit)
  {
  }

  /** The title, interviewer and venue are required; duration is not. */
  predicate NewRoundComplete(f: NewRoundForm) {
    f.title != "" && f.interviewer != "" && f.venue != ""
  }

  /** The round `addNewRound` builds from the form when there are already `n` rounds. */
  function NewRound(f: NewRoundForm, n: nat): RoundConfig {
    RoundConfig(RoundKey(n + 1), f.title, f.color, f.interviewer, f.venue, f.duration, f.interviewType)
  }

  class Board {
    var rounds: map<string, seq<Applicant>>
    var roundConfig: seq<RoundConfig>
    var draggedItem: Option<Applicant>
    var draggedFromRound: Option<string>
    var editingRound: Option<string>
    var isAddingRound: bool
    var editForm: RoundEdit
    var newRoundForm: NewRoundForm

    /**
     * The configured keys are exactly `round1..round<N>` in order and the
     * buckets are keyed by exactly those keys; a recorded drag source is a
     * bucket; the round being edited is a configured one (so its key is a
     * non-empty, truthy string) and its form carries no key or that key.
     */
    ghost predicate Valid()
      reads this
    {
      && ConfigKeys(roundConfig) == KeySeq(|roundConfig|)
      && (forall k :: k in rounds <==> k in KeySeq(|roundConfig|))
      && (draggedFromRound.Some? ==> draggedFromRound.value in rounds)
      && (editingRound.Some? ==> editingRound.value in ConfigKeys(roundConfig))
      && (editingRound.Some? ==> editForm.key.None? || editForm.key == editingRound)
    }

    /** A drag is in progress (`draggedItem` and `draggedFromRound` are truthy). */
    predicate HasDrag()
      reads this
    {
      draggedItem.Some? && draggedFromRound.Some? && draggedFromRound.value != ""
    }

    /** Round 1 holds every given applicant in order; rounds 2 and 3 start empty. */
    constructor (applicants: seq<Applicant>)
      ensures Valid()
      ensures rounds == map["round1" := applicants, "round2" := [], "round3" := []]
      ensures roundConfig == DefaultConfig
      ensures draggedItem == None && draggedFromRound == None && editingRound == None
      ensures !isAddingRound && editForm == NoEdit && newRoundForm == EmptyNewRoundForm
    {
      rounds := map["round1" := applicants, "round2" := [], "round3" := []];
      roundConfig := DefaultConfig;
      draggedItem, draggedFromRound, editingRound := None, None, None;
      isAddingRound := false;
      editForm := NoEdit;
      newRoundForm := EmptyNewRoundForm;
      new;
      assert RoundKey(1) == "round1" && RoundKey(2) == "round2" && RoundKey(3) == "round3" by {
        assert Decimal.ToDecimal(1) == [Decimal.DigitChar(1)];
        assert Decimal.ToDecimal(2) == [Decimal.DigitChar(2)];
        assert Decimal.ToDecimal(3) == [Decimal.DigitChar(3)];
      }
      assert KeySeq(3) == ["round1", "round2", "round3"];
    }

    /** `handleDragStart`: remembers the card and the bucket it was picked from. */
    method HandleDragStart(applicant: Applicant, roundKey: string)
      requires Valid() && roundKey in rounds
      modifies this`draggedItem, this`draggedFromRound
      ensures Valid()
      ensures draggedItem == Some(applicant) && draggedFromRound == Some(roundKey)
    {
      draggedItem := Some(applicant);
      draggedFromRound := Some(roundKey);
    }

    /**
     * `handleDrop` onto `target`: without a drag in progress nothing changes;
     * otherwise the buckets become Drop(...) and the drag state is cleared.
     */
    method HandleDrop(target: string)
      requires Valid() && target in rounds
      modifies this`rounds, this`draggedItem, this`draggedFromRound
      ensures Valid()
      ensures !old(HasDrag()) ==>
        rounds == old(rounds) && draggedItem == old(draggedItem) && draggedFromRound == old(draggedFromRound)
      ensures old(HasDrag()) ==>
        && rounds == Drop(old(rounds), old(draggedItem).value, old(draggedFromRound).value, target)
        && draggedItem == None && draggedFromRound == None
    {
      if !HasDrag() {
        return;
      }
      var item, source := draggedItem.value, draggedFromRound.value;
      var dropped := Drop(rounds, item, source, target);
      assert dropped.Keys == rounds.Keys;
      rounds := dropped;
      draggedItem := None;
      draggedFromRound := None;
    }

    /** `startEditRound`: opens the edit form on a configured round. */
    method StartEditRound(round: RoundConfig)
      requires Valid() && round in roundConfig
      modifies this`editingRound, this`editForm
      ensures Valid()
      ensures editingRound == Some(round.key) && editForm == EditOf(round)
    {
      editingRound := Some(round.key);
      editForm := EditOf(round);
    }

    /** An input box of the edit form: `setEditForm({ ...editForm, <field>: value })`. */
    method SetEditText(field: EditField, value: string)
      requires Valid()
      modifies this`editForm
      ensures Valid()
      ensures editForm == match field
        case TitleField => old(editForm).(title := Some(value))
        case InterviewerField => old(editForm).(interviewer := Some(value))
        case VenueField => old(editForm).(venue := Some(value))
        case DurationField => old(editForm).(duration := Some(value))
    {
      match field
      case TitleField => editForm := editForm.(title := Some(value));
      case InterviewerField => editForm := editForm.(interviewer := Some(value));
      case VenueField => editForm := editForm.(venue := Some(value));
      case DurationField => editForm := editForm.(duration := Some(value));
    }

    /** The type select of the edit form. */
    method SetEditType(t: InterviewType)
      requires Valid()
      modifies this`editForm
      ensures Valid()
      ensures editForm == old(editForm).(interviewType := Some(t))
    {
      editForm := editForm.(interviewType := Some(t));
    }

    /**
     * `saveRoundEdit`: with no round being edited nothing changes; otherwise
     * the edit is merged into that round and the edit form is closed. The
     * keys stay `round1..round<N>`.
     */
    method SaveRoundEdit()
      requires Valid()
      modifies this`roundConfig, this`editingRound, this`editForm
      ensures Valid()
      ensures old(editingRound).None? ==> roundConfig == old(roundConfig) && editForm == old(editForm) && editingRound == None
      ensures old(editingRound).Some? ==>
        && roundConfig == SaveEdit(old(roundConfig), old(editingRound).value, old(editForm))
        && editingRound == None && editForm == NoEdit
      ensures ConfigKeys(roundConfig) == ConfigKeys(old(roundConfig))
    {
      if editingRound.None? {
        return;
      }
      SaveEditKeepsKeys(roundConfig, editingRound.value, editForm);
      roundConfig := SaveEdit(roundConfig, editingRound.value, editForm);
      editingRound := None;
      editForm := NoEdit;
    }

    /** `cancelEdit`: closes the edit form without touching the configuration. */
    method CancelEdit()
      requires Valid()
      modifies this`editingRound, this`editForm
      ensures Valid()
      ensures editingRound == None && editForm == NoEdit
    {
      editingRound := None;
      editForm := NoEdit;
    }

    /** An input box of the add-round form: `setNewRoundForm({ ...newRoundForm, <field>: value })`. */
    method SetNewRoundText(field: EditField, value: string)
      requires Valid()
      modifies this`newRoundForm
      ensures Valid()
      ensures newRoundForm == match field
        case TitleField => old(newRoundForm).(title := value)
        case InterviewerField => old(newRoundForm).(interviewer := value)
        case VenueField => old(newRoundForm).(venue := value)
        case DurationField => old(newRoundForm).(duration := value)
    {
      match field
      case TitleField => newRoundForm := newRoundForm.(title := value);
      case InterviewerField => newRoundForm := newRoundForm.(interviewer := value);
      case VenueField => newRoundForm := newRoundForm.(venue := value);
      case DurationField => newRoundForm := newRoundForm.(duration := value);
    }

    /** The type select of the add-round form. */
    method SetNewRoundType(t: InterviewType)
      requires Valid()
      modifies this`newRoundForm
      ensures Valid()
      ensures newRoundForm == old(newRoundForm).(interviewType := t)
    {
      newRoundForm := newRoundForm.(interviewType := t);
    }

    /** The "Add Round" button and the form's Cancel button. */
    method SetAddingRound(open: bool)
      requires Valid()
      modifies this`isAddingRound
      ensures Valid() && isAddingRound == open
    {
      isAddingRound := open;
    }

    /**
     * `addNewRound`: an incomplete form changes nothing (`added` is false);
     * otherwise a round keyed `round<N+1>` is appended, an empty bucket is
     * created for it next to the untouched existing ones, and the form is
     * reset (type "technical") and closed.
     */
    method AddNewRound() returns (added: bool)
      requires Valid()
      modifies this`roundConfig, this`rounds, this`newRoundForm, this`isAddingRound
      ensures Valid()
      ensures added == NewRoundComplete(old(newRoundForm))
      ensures !added ==>
        roundConfig == old(roundConfig) && rounds == old(rounds)
        && newRoundForm == old(newRoundForm) && isAddingRound == old(isAddingRound)
      ensures added ==>
        && roundConfig == old(roundConfig) + [NewRound(old(newRoundForm), |old(roundConfig)|)]
        && RoundKey(|old(roundConfig)| + 1) !in old(rounds)
        && rounds == old(rounds)[RoundKey(|old(roundConfig)| + 1) := []]
        && newRoundForm == EmptyNewRoundForm && !isAddingRound
    {
      if !NewRoundComplete(newRoundForm) {
        return false;
      }
      var n := |roundConfig|;
      KeySeqFresh(n);
      var newKey := RoundKey(n + 1);
      roundConfig := roundConfig + [NewRound(newRoundForm, n)];
      assert ConfigKeys(roundConfig) == ConfigKeys(old(roundConfig)) + [newKey];
      rounds := rounds[newKey := []];
      newRoundForm := EmptyNewRoundForm;
      isAddingRound := false;
      added := true;
    }
  }
}
