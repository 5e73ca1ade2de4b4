/**
 * The quest log's click handler: only a quest in progress can be tracked, and
 * a click on one plays the quest sound for the state it is about to take and
 * asks the owner to toggle that quest.
 */
module DataContent {
  import opened Wrappers
  import opened Types

  /** `quest.tracked` is truthy; an absent field is false. */
  predicate IsTracked(q: Quest) {
    q.tracked == Some(true)
  }

  /** What a click on a quest does: nothing, or a sound for `willBeTracked` and `onQuestToggle(questIndex)`. */
  datatype QuestClick = Ignored | Toggle(questIndex: nat, willBeTracked: bool)

  /** `handleQuestClick(questIndex)` on row `questIndex` of the log. */
  function HandleQuestClick(quests: seq<Quest>, questIndex: nat): QuestClick
    requires questIndex < |quests|
  {
    var quest := quests[questIndex];
    if quest.status != InProgress then Ignored
    else Toggle(questIndex, !IsTracked(quest))
  }

  /**
   * A click is ignored exactly when the quest is not in progress; otherwise
   * it toggles that very quest, announcing the negation of its tracked flag.
   */
  lemma QuestClickGuard(quests: seq<Quest>, questIndex: nat)
    requires questIndex < |quests|
    ensures var r := HandleQuestClick(quests, questIndex);
      && (r.Ignored? <==> quests[questIndex].status != InProgress)
      && (r.Toggle? ==> r.questIndex == questIndex && r.willBeTracked == !IsTracked(quests[questIndex]))
  {
  }
}
