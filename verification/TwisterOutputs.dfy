/** The first outputs for the default seed of ISO C++14, section 26.5.3.2: with them the constants of seeding, of the
    recurrence and of tempering are fixed. The elements are computed one after the other up to number 161, the last one
    that the first six outputs depend on; only those that they use, and every tenth as a landmark, are written out. */
module TwisterOutputs {
  import opened Twister

  const SEED: bv64 := 5489

  /** The next of the first 312 elements. */
  lemma Next(k: nat, word: bv64, next: bv64)
    requires k + 1 < NN && X(SEED, k) == word && SeedStep(word, k + 1) == next
    ensures X(SEED, k + 1) == next
  {
  }

  lemma Words10()
    ensures X(SEED, 10) == 0x967BEFB79A4BAC2C
    ensures X(SEED, 0) == 0x0000000000001571
    ensures X(SEED, 1) == 0xB5347F47116BD3DE
    ensures X(SEED, 2) == 0x9165B5762D1A61AE
    ensures X(SEED, 3) == 0xD139B6BBED337F3F
    ensures X(SEED, 4) == 0x37E740001C182190
    ensures X(SEED, 5) == 0xE398F84731B45655
    ensures X(SEED, 6) == 0x097392E1FB95D724
  {
    hide X;
    FirstElement(SEED);
    Next(0, 0x0000000000001571, 0xB5347F47116BD3DE);
    Next(1, 0xB5347F47116BD3DE, 0x9165B5762D1A61AE);
    Next(2, 0x9165B5762D1A61AE, 0xD139B6BBED337F3F);
    Next(3, 0xD139B6BBED337F3F, 0x37E740001C182190);
    Next(4, 0x37E740001C182190, 0xE398F84731B45655);
    Next(5, 0xE398F84731B45655, 0x097392E1FB95D724);
    Next(6, 0x097392E1FB95D724, 0x102FF8F17705AD5B);
    Next(7, 0x102FF8F17705AD5B, 0xAFD3B741A6F69E07);
    Next(8, 0xAFD3B741A6F69E07, 0x3673B7B326A741EA);
    Next(9, 0x3673B7B326A741EA, 0x967BEFB79A4BAC2C);
  }

  lemma Words20()
    ensures X(SEED, 20) == 0xE21A56B927CC049E
  {
    hide X;
    Words10();
    Next(10, 0x967BEFB79A4BAC2C, 0x81579A10887E1621);
    Next(11, 0x81579A10887E1621, 0xFA4F68BAD1844133);
    Next(12, 0xFA4F68BAD1844133, 0xD26A818BA186457D);
    Next(13, 0xD26A818BA186457D, 0x58EA399ADB69B934);
    Next(14, 0x58EA399ADB69B934, 0x7BE61CE78C4FD960);
    Next(15, 0x7BE61CE78C4FD960, 0x6520FC5E9855551D);
    Next(16, 0x6520FC5E9855551D, 0xC641EF0DF584D9FD);
    Next(17, 0xC641EF0DF584D9FD, 0xE8B0B2F1595553B8);
    Next(18, 0xE8B0B2F1595553B8, 0x2ACC772248607CF2);
    Next(19, 0x2ACC772248607CF2, 0xE21A56B927CC049E);
  }

  lemma Words30()
    ensures X(SEED, 30) == 0xA20C5CE2D836B014
  {
    hide X;
    Words20();
    Next(20, 0xE21A56B927CC049E, 0x222B48008087B2AE);
    Next(21, 0x222B48008087B2AE, 0xCFFD407690C4BAAC);
    Next(22, 0xCFFD407690C4BAAC, 0x185E6D58A70CA1DA);
    Next(23, 0x185E6D58A70CA1DA, 0xA47F692D8D65996A);
    Next(24, 0xA47F692D8D65996A, 0xD80BA31C6B7E8F61);
    Next(25, 0xD80BA31C6B7E8F61, 0xB35584C73A6AD254);
    Next(26, 0xB35584C73A6AD254, 0x92AAD4BC372DA339);
    Next(27, 0x92AAD4BC372DA339, 0x59C35BD9DC56F67B);
    Next(28, 0x59C35BD9DC56F67B, 0x5FEEE4D68C91D98F);
    Next(29, 0x5FEEE4D68C91D98F, 0xA20C5CE2D836B014);
  }

  lemma Words40()
    ensures X(SEED, 40) == 0x7F7D617ACECC3F45
  {
    hide X;
    Words30();
    Next(30, 0xA20C5CE2D836B014, 0x6EE0DD1C27C5DDFD);
    Next(31, 0x6EE0DD1C27C5DDFD, 0x8A81EF0B2A94096C);
    Next(32, 0x8A81EF0B2A94096C, 0xA161CA6211B93A77);
    Next(33, 0xA161CA6211B93A77, 0x2A3A52C2C3A851B3);
    Next(34, 0x2A3A52C2C3A851B3, 0x8CD8FCFC964D299A);
    Next(35, 0x8CD8FCFC964D299A, 0x039559F108AAB7DC);
    Next(36, 0x039559F108AAB7DC, 0xAA981E498A4475D1);
    Next(37, 0xAA981E498A4475D1, 0x47B66D6F7C4B633D);
    Next(38, 0x47B66D6F7C4B633D, 0x9FF6E624D16735B3);
    Next(39, 0x9FF6E624D16735B3, 0x7F7D617ACECC3F45);
  }

  lemma Words50()
    ensures X(SEED, 50) == 0x8BB8A2F776AB0BC5
  {
    hide X;
    Words40();
    Next(40, 0x7F7D617ACECC3F45, 0x38FCFDCAAFDDDB1D);
    Next(41, 0x38FCFDCAAFDDDB1D, 0x14928B261D93E743);
    Next(42, 0x14928B261D93E743, 0xFE6000E410B8E3F2);
    Next(43, 0xFE6000E410B8E3F2, 0xB208B107E0D9A089);
    Next(44, 0xB208B107E0D9A089, 0x82F135B131CD2D9C);
    Next(45, 0x82F135B131CD2D9C, 0x987DDA96FFA866F4);
    Next(46, 0x987DDA96FFA866F4, 0xE1EBB23270DC236D);
    Next(47, 0xE1EBB23270DC236D, 0x02F775D6534BCC86);
    Next(48, 0x02F775D6534BCC86, 0x2916B16310C76DBF);
    Next(49, 0x2916B16310C76DBF, 0x8BB8A2F776AB0BC5);
  }

  lemma Words60()
    ensures X(SEED, 60) == 0x3E32761E6D7FA19A
  {
    hide X;
    Words50();
    Next(50, 0x8BB8A2F776AB0BC5, 0x7ED20066A5BBCB2E);
    Next(51, 0x7ED20066A5BBCB2E, 0xBF99B825822A0877);
    Next(52, 0xBF99B825822A0877, 0x175137B563AE87C6);
    Next(53, 0x175137B563AE87C6, 0x8ED13207E9471804);
    Next(54, 0x8ED13207E9471804, 0xC8BE8AAF09E83345);
    Next(55, 0xC8BE8AAF09E83345, 0xD6F2A55B8EFEBD86);
    Next(56, 0xD6F2A55B8EFEBD86, 0x33EC6BF14D354B9A);
    Next(57, 0x33EC6BF14D354B9A, 0x1AA08340BB81B04C);
    Next(58, 0x1AA08340BB81B04C, 0x658C3F94787DB197);
    Next(59, 0x658C3F94787DB197, 0x3E32761E6D7FA19A);
  }

  lemma Words70()
    ensures X(SEED, 70) == 0xFC88FE527028E53E
  {
    hide X;
    Words60();
    Next(60, 0x3E32761E6D7FA19A, 0xB6DFAB00573CCE4F);
    Next(61, 0xB6DFAB00573CCE4F, 0xC4EDB5826ED976C7);
    Next(62, 0xC4EDB5826ED976C7, 0x9E186133AE391CB3);
    Next(63, 0x9E186133AE391CB3, 0xC8B2D463344ADA5D);
    Next(64, 0xC8B2D463344ADA5D, 0x01182F4C543304C7);
    Next(65, 0x01182F4C543304C7, 0xB99FD847F829903D);
    Next(66, 0xB99FD847F829903D, 0xB5ADE6D9E6889C56);
    Next(67, 0xB5ADE6D9E6889C56, 0x53F2F45B38752708);
    Next(68, 0x53F2F45B38752708, 0x9E6E49666F3253DA);
    Next(69, 0x9E6E49666F3253DA, 0xFC88FE527028E53E);
  }

  lemma Words80()
    ensures X(SEED, 80) == 0x23044078EFC82346
  {
    hide X;
    Words70();
    Next(70, 0xFC88FE527028E53E, 0x0B8275B6896A8F00);
    Next(71, 0x0B8275B6896A8F00, 0x6964FFBB3FAC2348);
    Next(72, 0x6964FFBB3FAC2348, 0x957EC9FFCC406B1E);
    Next(73, 0x957EC9FFCC406B1E, 0x8149ED8183C1B836);
    Next(74, 0x8149ED8183C1B836, 0x0B6423B4E9B32D6F);
    Next(75, 0x0B6423B4E9B32D6F, 0x8FEA06065DA40DCF);
    Next(76, 0x8FEA06065DA40DCF, 0x737C3D30BD002056);
    Next(77, 0x737C3D30BD002056, 0x800B954BEFB3D899);
    Next(78, 0x800B954BEFB3D899, 0x0F91A17D7148F88E);
    Next(79, 0x0F91A17D7148F88E, 0x23044078EFC82346);
  }

  lemma Words90()
    ensures X(SEED, 90) == 0x4BF32AC4EE54D4FB
  {
    hide X;
    Words80();
    Next(80, 0x23044078EFC82346, 0xD2413979BF6BED9F);
    Next(81, 0xD2413979BF6BED9F, 0x3C786924CCA528BE);
    Next(82, 0x3C786924CCA528BE, 0x147B229D06D46BB9);
    Next(83, 0x147B229D06D46BB9, 0xCAC949203374B6D9);
    Next(84, 0xCAC949203374B6D9, 0xB47359B9171C4AA7);
    Next(85, 0xB47359B9171C4AA7, 0x7AB3D4A18709FA57);
    Next(86, 0x7AB3D4A18709FA57, 0x82C40AA0EBFFAB75);
    Next(87, 0x82C40AA0EBFFAB75, 0x877A85FE72442D43);
    Next(88, 0x877A85FE72442D43, 0xDAB66FF48B4433C6);
    Next(89, 0xDAB66FF48B4433C6, 0x4BF32AC4EE54D4FB);
  }

  lemma Words100()
    ensures X(SEED, 100) == 0x429CFBFCEE91AE31
  {
    hide X;
    Words90();
    Next(90, 0x4BF32AC4EE54D4FB, 0x6A57D5662813764D);
    Next(91, 0x6A57D5662813764D, 0xF2E186A51D577FB8);
    Next(92, 0xF2E186A51D577FB8, 0x368B524C6C96393C);
    Next(93, 0x368B524C6C96393C, 0x4BFA6D46BCB8D3EA);
    Next(94, 0x4BFA6D46BCB8D3EA, 0x5D423FDAF965D5AE);
    Next(95, 0x5D423FDAF965D5AE, 0x19C09AAFAEC36123);
    Next(96, 0x19C09AAFAEC36123, 0xF8BB804992E77088);
    Next(97, 0xF8BB804992E77088, 0x0DF7875C686ABDD1);
    Next(98, 0x0DF7875C686ABDD1, 0x7741AB42D5930D20);
    Next(99, 0x7741AB42D5930D20, 0x429CFBFCEE91AE31);
  }

  lemma Words110()
    ensures X(SEED, 110) == 0xCD9074C2B4EF0468
  {
    hide X;
    Words100();
    Next(100, 0x429CFBFCEE91AE31, 0xBE763EC0D6F56ED5);
    Next(101, 0xBE763EC0D6F56ED5, 0x9AC91415E2442531);
    Next(102, 0x9AC91415E2442531, 0x2CCA75C45F1DD75E);
    Next(103, 0x2CCA75C45F1DD75E, 0xC5CDCA88C7CC7DEE);
    Next(104, 0xC5CDCA88C7CC7DEE, 0xB0887B3A385BB612);
    Next(105, 0xB0887B3A385BB612, 0x2B73D36F1EC0F13A);
    Next(106, 0x2B73D36F1EC0F13A, 0xB73E27E5BE582D9D);
    Next(107, 0xB73E27E5BE582D9D, 0x113C84A0F5ACE65F);
    Next(108, 0x113C84A0F5ACE65F, 0x8F1386E53EF8A020);
    Next(109, 0x8F1386E53EF8A020, 0xCD9074C2B4EF0468);
  }

  lemma Words120()
    ensures X(SEED, 120) == 0x8B1F37B4EDEDB9A3
  {
    hide X;
    Words110();
    Next(110, 0xCD9074C2B4EF0468, 0x5B702538B77BDC3E);
    Next(111, 0x5B702538B77BDC3E, 0xDC4A018B97B3F883);
    Next(112, 0xDC4A018B97B3F883, 0x9B0BEDD1956A2EF1);
    Next(113, 0x9B0BEDD1956A2EF1, 0xAAB8206B6863CE29);
    Next(114, 0xAAB8206B6863CE29, 0x999B98859FD99302);
    Next(115, 0x999B98859FD99302, 0x9E999210982BD774);
    Next(116, 0x9E999210982BD774, 0x46B1D5A1EF466A33);
    Next(117, 0x46B1D5A1EF466A33, 0x06F16177A5297940);
    Next(118, 0x06F16177A5297940, 0x248F3E5A2DB110B7);
    Next(119, 0x248F3E5A2DB110B7, 0x8B1F37B4EDEDB9A3);
  }

  lemma Words130()
    ensures X(SEED, 130) == 0x5524BF4114923F24
  {
    hide X;
    Words120();
    Next(120, 0x8B1F37B4EDEDB9A3, 0x8FB8B09C989580C6);
    Next(121, 0x8FB8B09C989580C6, 0x9A8C5EEB1F3CDEEE);
    Next(122, 0x9A8C5EEB1F3CDEEE, 0x04BAB3EB7FA643F7);
    Next(123, 0x04BAB3EB7FA643F7, 0x68327B16CEB47BE7);
    Next(124, 0x68327B16CEB47BE7, 0x652AD6D0440EE1EB);
    Next(125, 0x652AD6D0440EE1EB, 0xF57FDA3C4DE2CCA0);
    Next(126, 0xF57FDA3C4DE2CCA0, 0x247245A5B341D626);
    Next(127, 0x247245A5B341D626, 0xE8012FA117ED7F2E);
    Next(128, 0xE8012FA117ED7F2E, 0x31E6F8156807AE6A);
    Next(129, 0x31E6F8156807AE6A, 0x5524BF4114923F24);
  }

  lemma Words140()
    ensures X(SEED, 140) == 0x1EDAA63E5ADBEF14
  {
    hide X;
    Words130();
    Next(130, 0x5524BF4114923F24, 0x89ECA903E7917504);
    Next(131, 0x89ECA903E7917504, 0x9D78E605C21D8C92);
    Next(132, 0x9D78E605C21D8C92, 0x8213008D57BD25D5);
    Next(133, 0x8213008D57BD25D5, 0x2845027D1C285051);
    Next(134, 0x2845027D1C285051, 0x88CF2E81BE134DC4);
    Next(135, 0x88CF2E81BE134DC4, 0xE59A4A3B0937E656);
    Next(136, 0xE59A4A3B0937E656, 0xA14CCCCEA590A87A);
    Next(137, 0xA14CCCCEA590A87A, 0x8A7FD0C38BD925A2);
    Next(138, 0x8A7FD0C38BD925A2, 0xC505AE6EB4F5FDAB);
    Next(139, 0xC505AE6EB4F5FDAB, 0x1EDAA63E5ADBEF14);
  }

  lemma Words150()
    ensures X(SEED, 150) == 0xAAAA9BECDE4B2F4E
  {
    hide X;
    Words140();
    Next(140, 0x1EDAA63E5ADBEF14, 0x48086B892AE7F311);
    Next(141, 0x48086B892AE7F311, 0x2CE7C25ED4AAAA5E);
    Next(142, 0x2CE7C25ED4AAAA5E, 0x6A9E329B1D3A9515);
    Next(143, 0x6A9E329B1D3A9515, 0xBE9684A2E7E52114);
    Next(144, 0xBE9684A2E7E52114, 0xEAB0E8BA387EBB6F);
    Next(145, 0xEAB0E8BA387EBB6F, 0xE7CBAE25F31D868E);
    Next(146, 0xE7CBAE25F31D868E, 0x5581BF318E019A5C);
    Next(147, 0x5581BF318E019A5C, 0xB07E184435FD45ED);
    Next(148, 0xB07E184435FD45ED, 0x20BACEF5CB51DC98);
    Next(149, 0x20BACEF5CB51DC98, 0xAAAA9BECDE4B2F4E);
  }

  lemma Words160()
    ensures X(SEED, 160) == 0x411AA452B9119F91
    ensures X(SEED, 156) == 0x245B1C66FA082BFF
    ensures X(SEED, 157) == 0x0252CFC850AE3D70
    ensures X(SEED, 158) == 0x16CD2293A14B5D4E
    ensures X(SEED, 159) == 0x3EE1503E33EF1955
  {
    hide X;
    Words150();
    Next(150, 0xAAAA9BECDE4B2F4E, 0x898B5F1376EA04F3);
    Next(151, 0x898B5F1376EA04F3, 0xCB65A0736BDB6DF5);
    Next(152, 0xCB65A0736BDB6DF5, 0x47E02E65D94D5ED7);
    Next(153, 0x47E02E65D94D5ED7, 0x99EAC4824F33D638);
    Next(154, 0x99EAC4824F33D638, 0xA1C29D298B256ECD);
    Next(155, 0xA1C29D298B256ECD, 0x245B1C66FA082BFF);
    Next(156, 0x245B1C66FA082BFF, 0x0252CFC850AE3D70);
    Next(157, 0x0252CFC850AE3D70, 0x16CD2293A14B5D4E);
    Next(158, 0x16CD2293A14B5D4E, 0x3EE1503E33EF1955);
    Next(159, 0x3EE1503E33EF1955, 0x411AA452B9119F91);
  }

  lemma Words161()
    ensures X(SEED, 161) == 0x2D092B4AE5117CF1
    ensures X(SEED, 160) == 0x411AA452B9119F91
  {
    hide X;
    Words160();
    Next(160, 0x411AA452B9119F91, 0x2D092B4AE5117CF1);
  }

  lemma Output(t: nat, first: bv64, second: bv64, middle: bv64)
    requires X(SEED, t) == first && X(SEED, t + 1) == second && X(SEED, t + MM) == middle
    ensures X(SEED, NN + t) == Twist(first, second, middle)
  {
    Recurrence(SEED, t);
  }

  /** What the first six calls return. */
  lemma FirstOutputs()
    ensures Temper(X(SEED, NN + 0)) == 14514284786278117030
    ensures Temper(X(SEED, NN + 1)) == 4620546740167642908
    ensures Temper(X(SEED, NN + 2)) == 13109570281517897720
    ensures Temper(X(SEED, NN + 3)) == 17462938647148434322
    ensures Temper(X(SEED, NN + 4)) == 355488278567739596
    ensures Temper(X(SEED, NN + 5)) == 7469126240319926998
  {
    hide X;
    Words10();
    Words150();
    Words160();
    Words161();
    Output(0, 0x0000000000001571, 0xB5347F47116BD3DE, 0x245B1C66FA082BFF);
    Output(1, 0xB5347F47116BD3DE, 0x9165B5762D1A61AE, 0x0252CFC850AE3D70);
    Output(2, 0x9165B5762D1A61AE, 0xD139B6BBED337F3F, 0x16CD2293A14B5D4E);
    Output(3, 0xD139B6BBED337F3F, 0x37E740001C182190, 0x3EE1503E33EF1955);
    Output(4, 0x37E740001C182190, 0xE398F84731B45655, 0x411AA452B9119F91);
    Output(5, 0xE398F84731B45655, 0x097392E1FB95D724, 0x2D092B4AE5117CF1);
  }
}
